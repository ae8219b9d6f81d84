/** `pyeartrainer/trainer/utils.py`: picking one element of a list at random.
    The random source is an oracle: `draw` stands for the state of Python's
    generator at the call, so the pick is a function of its inputs. */
module Utils {
  import opened Wrappers

  /** The argument of `random_pick`: a Python list, or any value that is not one. */
  datatype PickArg<T> = ListArg(items: seq<T>) | NotAList

  /** `random.randint(lo, hi)` driven by the oracle value `draw`: a number in
      `lo..hi`, or a ValueError when that range is empty. */
  function RandInt(lo: int, hi: int, draw: nat): (r: Result<int>)
    ensures r.Ok? <==> lo <= hi
    ensures r.Ok? ==> lo <= r.value <= hi
    ensures r.Err? ==> r.error == ValueError
  {
    if lo > hi then Err(ValueError) else Ok(lo + draw % (hi - lo + 1))
  }

  /** Every number of a non-empty range is drawn by some oracle value. */
  lemma RandIntReachesAll(lo: int, hi: int, v: int)
    requires lo <= v <= hi
    ensures exists draw: nat :: RandInt(lo, hi, draw) == Ok(v)
  {
    assert RandInt(lo, hi, v - lo) == Ok(v);
  }

  /** `random_pick(data)`: a ValueError for a non-list, a ValueError from
      `randint(0, -1)` for the empty list, and otherwise the element at the
      drawn index. The list itself is a value and is not changed. */
  function RandomPick<T>(data: PickArg<T>, draw: nat): (r: Result<T>)
    ensures r.Ok? <==> data.ListArg? && |data.items| > 0
    ensures r.Err? ==> r.error == ValueError
    ensures r.Ok? ==> exists k :: 0 <= k < |data.items| && r.value == data.items[k]
  {
    match data
    case NotAList => Err(ValueError)
    case ListArg(items) =>
      var k :- RandInt(0, |items| - 1, draw);
      Ok(items[k])
  }

  /** Which element a pick from a non-empty list returns. */
  lemma RandomPickIndex<T>(items: seq<T>, draw: nat)
    requires |items| > 0
    ensures RandomPick(ListArg(items), draw) == Ok(items[draw % |items|])
  {
  }

  /** Every element of a non-empty list can be the one picked. */
  lemma RandomPickReachesAll<T>(items: seq<T>, k: int)
    requires 0 <= k < |items|
    ensures exists draw: nat :: RandomPick(ListArg(items), draw) == Ok(items[k])
  {
    RandomPickIndex(items, k);
    assert k % |items| == k;
    assert RandomPick(ListArg(items), k) == Ok(items[k]);
  }
}
