/** Python's exceptions, as far as the modelled code can raise them, and a
    failure-compatible result type that carries either a value or one of them. */
module Wrappers {

  /** The built-in exception classes the modelled code raises. */
  datatype Error = KeyError | IndexError | ValueError | TypeError

  /** A value, or the exception that interrupted its computation. */
  datatype Result<+T> = Ok(value: T) | Err(error: Error) {

    predicate IsFailure() {
      Err?
    }

    function PropagateFailure<U>(): Result<U>
      requires Err?
    {
      Err(error)
    }

    function Extract(): T
      requires Ok?
    {
      value
    }
  }

  /** The values of a list of computations run in order, each appended to a
      growing list as a Python loop does, or the error of the first that fails. */
  function Collect<T>(results: seq<Result<T>>): Result<seq<T>>
    decreases |results|
  {
    if results == [] then Ok([])
    else
      var init :- Collect(results[..|results| - 1]);
      var last :- results[|results| - 1];
      Ok(init + [last])
  }

  /** Collecting succeeds exactly when every computation does, and then yields
      their values in order; otherwise it yields the first failure's error. */
  lemma {:induction false} CollectSpec<T>(results: seq<Result<T>>)
    ensures Collect(results).Ok? <==> forall i :: 0 <= i < |results| ==> results[i].Ok?
    ensures Collect(results).Ok? ==>
      |Collect(results).value| == |results| &&
      forall i :: 0 <= i < |results| ==> results[i] == Ok(Collect(results).value[i])
    ensures Collect(results).Err? ==>
      exists k :: 0 <= k < |results| && results[k] == Err(Collect(results).error) &&
        forall i :: 0 <= i < k ==> results[i].Ok?
    decreases |results|
  {
    if results != [] {
      var last := |results| - 1;
      var init := results[..last];
      CollectSpec(init);
      assert forall i :: 0 <= i < last ==> results[i] == init[i];
      var c := Collect(init);
      if c.Ok? && results[last].Ok? {
        var values := c.value + [results[last].value];
        assert Collect(results) == Ok(values);
        assert forall i :: 0 <= i < |results| ==> results[i] == Ok(values[i]);
      } else if c.Ok? {
        assert Collect(results) == Err(results[last].error);
      } else {
        var k :| 0 <= k < |init| && init[k] == Err(c.error) && forall i :: 0 <= i < k ==> init[i].Ok?;
        assert Collect(results) == Err(c.error);
        assert results[k] == Err(c.error);
      }
    }
  }

  /** One more successful step extends the collected prefix by its value. */
  lemma CollectStep<T>(results: seq<Result<T>>, k: nat, values: seq<T>, x: T)
    requires k < |results| && Collect(results[..k]) == Ok(values) && results[k] == Ok(x)
    ensures Collect(results[..k + 1]) == Ok(values + [x])
  {
    assert results[..k + 1][..k] == results[..k];
  }

  /** A failing step after a successful prefix is the error of the whole run. */
  lemma CollectFirstError<T>(results: seq<Result<T>>, k: nat)
    requires k < |results| && Collect(results[..k]).Ok? && results[k].Err?
    ensures Collect(results) == Err(results[k].error)
  {
    CollectSpec(results[..k]);
    CollectSpec(results);
    assert forall i :: 0 <= i < k ==> results[i] == results[..k][i];
    var j :| 0 <= j < |results| && results[j] == Err(Collect(results).error) &&
      forall i :: 0 <= i < j ==> results[i].Ok?;
    assert j == k;
  }
}
