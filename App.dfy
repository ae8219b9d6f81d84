/** The part of `pyeartrainer/app.py` that is logic rather than terminal and
    audio handling: `generate_options`, which turns a round's options into
    numbered labels and the key codes that answer them, and the scoring rule of
    the session loop in `curses_main`. The key the player presses in each round
    is supplied as input. */
module App {
  import opened Wrappers
  import opened Builtins
  import opened Interval

  /** The label of an option: its 1-based number, ". ", and its interval name. */
  function OptionLabel(c: Choice): (r: Result<string>)
    ensures r.Ok? <==> IntervalName(c.name).Ok?
    ensures r.Err? ==> r.error == IntervalName(c.name).error
  {
    var name :- IntervalName(c.name);
    Ok(NatToString(c.position + 1) + ". " + name)
  }

  /** A label of one of the first nine options can be read back: its first
      character is the digit of the option's number, then ". ", then a name that
      gives back the first two characters of the option's code. */
  lemma OptionLabelReadsBack(c: Choice)
    requires OptionLabel(c).Ok? && c.position < 9
    ensures var text := OptionLabel(c).value;
      |text| >= 3 && text[0] as int == 49 + c.position && text[1..3] == ". " &&
      IntervalCode(text[3..]) == Ok(c.name[..2])
  {
    var digits := NatToString(c.position + 1);
    var name := IntervalName(c.name).value;
    var text := OptionLabel(c).value;
    assert text == digits + ". " + name;
    assert text[3..] == name;
    IntervalCodeOfName(c.name);
  }

  /** The key code that answers option `i`: `ord(str(i + 1))`, a TypeError once
      `str(i + 1)` has two digits. */
  function KeyCode(i: nat): (r: Result<int>)
    ensures r.Ok? <==> i < 9
    ensures r.Ok? ==> r.value == 49 + i
    ensures r.Err? ==> r.error == TypeError
  {
    Ord(NatToString(i + 1))
  }

  function LabelSteps(options: seq<Choice>): (steps: seq<Result<string>>)
    ensures |steps| == |options|
    ensures forall k :: 0 <= k < |options| ==> steps[k] == OptionLabel(options[k])
  {
    seq(|options|, k requires 0 <= k < |options| => OptionLabel(options[k]))
  }

  function KeySteps(n: nat): (steps: seq<Result<int>>)
    ensures |steps| == n
    ensures forall i :: 0 <= i < n ==> steps[i] == KeyCode(i)
  {
    seq(n, i requires 0 <= i < n => KeyCode(i))
  }

  /** Every option's code can be named. */
  predicate AllNamed(options: seq<Choice>) {
    forall k :: 0 <= k < |options| ==> IntervalName(options[k].name).Ok?
  }

  /** The labels succeed exactly when every code can be named; otherwise the
      first option that cannot be named decides the error. Label k is option k's
      number, ". " and its name. */
  lemma LabelStepsSpec(options: seq<Choice>)
    ensures var r := Collect(LabelSteps(options));
      (r.Ok? <==> AllNamed(options)) &&
      (r.Err? ==> exists k :: 0 <= k < |options| && IntervalName(options[k].name).Err? &&
                              r.error == IntervalName(options[k].name).error &&
                              forall j :: 0 <= j < k ==> IntervalName(options[j].name).Ok?) &&
      (r.Ok? ==> |r.value| == |options| &&
                 forall k :: 0 <= k < |options| ==>
                   r.value[k] == NatToString(options[k].position + 1) + ". " + IntervalName(options[k].name).value)
  {
    var steps := LabelSteps(options);
    CollectSpec(steps);
    assert AllNamed(options) <==> forall k :: 0 <= k < |options| ==> steps[k].Ok?;
  }

  /** The key codes succeed exactly for at most nine options, failing with a
      TypeError; key i is the code of digit i+1. */
  lemma KeyStepsSpec(n: nat)
    ensures var r := Collect(KeySteps(n));
      (r.Ok? <==> n <= 9) &&
      (r.Err? ==> r.error == TypeError) &&
      (r.Ok? ==> |r.value| == n && forall i :: 0 <= i < n ==> r.value[i] == 49 + i)
  {
    var steps := KeySteps(n);
    CollectSpec(steps);
    if n > 9 {
      assert steps[9].Err?;
    }
    if Collect(steps).Err? {
      var k :| 0 <= k < |steps| && steps[k] == Err(Collect(steps).error);
    }
  }

  /** `generate_options`: the key codes and the labels of a round's options. It
      succeeds exactly when every code can be named and there are at most nine
      options. The labels are built first, so a naming error wins; with every
      code named, more than nine options raise a TypeError. Key i is the code of
      digit i+1 and label k is option k's number, ". " and its name. */
  function GenerateOptions(options: seq<Choice>): (r: Result<(seq<int>, seq<string>)>)
    ensures r.Ok? <==> AllNamed(options) && |options| <= 9
    ensures r.Err? && AllNamed(options) ==> r.error == TypeError
    ensures r.Err? && !AllNamed(options) ==>
      exists k :: 0 <= k < |options| && IntervalName(options[k].name).Err? &&
                  r.error == IntervalName(options[k].name).error &&
                  forall j :: 0 <= j < k ==> IntervalName(options[j].name).Ok?
    ensures r.Ok? ==>
      var (keys, labels) := r.value;
      |keys| == |options| && |labels| == |options| &&
      (forall i :: 0 <= i < |keys| ==> keys[i] == 49 + i) &&
      forall k :: 0 <= k < |labels| ==>
        labels[k] == NatToString(options[k].position + 1) + ". " + IntervalName(options[k].name).value
  {
    LabelStepsSpec(options);
    KeyStepsSpec(|options|);
    var labels :- Collect(LabelSteps(options));
    var keys :- Collect(KeySteps(|options|));
    Ok((keys, labels))
  }

  /** When option k sits at position k, as in every generated round, label k
      begins with the digit whose code is key k, followed by ". ". */
  lemma LabelsMatchKeys(options: seq<Choice>, k: int)
    requires GenerateOptions(options).Ok?
    requires 0 <= k < |options| && options[k].position == k
    ensures var (keys, labels) := GenerateOptions(options).value;
      k < |keys| && k < |labels| &&
      |labels[k]| >= 3 && labels[k][0] as int == keys[k] && labels[k][1..3] == ". "
  {
    var labels := GenerateOptions(options).value.1;
    var digits := NatToString(k + 1);
    assert |digits| == 1 && digits[0] as int == 49 + k;
    assert labels[k] == digits + ". " + IntervalName(options[k].name).value;
    assert labels[k][1..3] == ". ";
  }

  /** The notes played in a round: those of the first option whose position is
      the correct one; an IndexError when there is none. */
  function PlayedNotes(options: seq<Choice>, intervalIndex: int): (r: Result<seq<int>>)
    ensures r.Ok? <==> exists k :: 0 <= k < |options| && options[k].position == intervalIndex
    ensures r.Err? ==> r.error == IndexError
    ensures r.Ok? ==>
      exists k :: 0 <= k < |options| && options[k].position == intervalIndex && r.value == options[k].notes &&
                  forall j :: 0 <= j < k ==> options[j].position != intervalIndex
    decreases |options|
  {
    if options == [] then Err(IndexError)
    else if options[0].position == intervalIndex then Ok(options[0].notes)
    else
      var r := PlayedNotes(options[1..], intervalIndex);
      assert forall k :: 0 < k < |options| ==> options[k] == options[1..][k - 1];
      r
  }

  /** How a round was answered. */
  datatype Verdict = Correct | Incorrect(correctAnswer: string)

  /** What one round played, offered and concluded. */
  datatype RoundReport = RoundReport(played: seq<int>, keys: seq<int>, labels: seq<string>, verdict: Verdict)

  /** The number of correctly answered rounds and the report of every round. */
  datatype Session = Session(correctRounds: nat, reports: seq<RoundReport>)

  /** One round of the session loop, answered with key `key`: correct exactly
      when the key is `ord(str(interval_index + 1))`; otherwise the correct
      option's label is shown. */
  function JudgeRound(round: Round, key: int): (r: Result<RoundReport>)
    ensures r.Ok? ==> (r.value.verdict.Correct? <==> key == 49 + round.intervalIndex)
  {
    var played :- PlayedNotes(round.options, round.intervalIndex);
    var prompt :- GenerateOptions(round.options);
    var expected :- KeyCode(round.intervalIndex);
    if key == expected then
      Ok(RoundReport(played, prompt.0, prompt.1, Correct))
    else if round.intervalIndex < |prompt.1| then
      Ok(RoundReport(played, prompt.0, prompt.1, Incorrect(prompt.1[round.intervalIndex])))
    else
      Err(IndexError)
  }

  function JudgeSteps(sequence: seq<Round>, presses: seq<int>): (steps: seq<Result<RoundReport>>)
    requires |presses| == |sequence|
    ensures |steps| == |sequence|
    ensures forall i :: 0 <= i < |sequence| ==> steps[i] == JudgeRound(sequence[i], presses[i])
  {
    seq(|sequence|, i requires 0 <= i < |sequence| => JudgeRound(sequence[i], presses[i]))
  }

  /** How many of the reports are correct answers. */
  function CountCorrect(reports: seq<RoundReport>): (n: nat)
    ensures n <= |reports|
    decreases |reports|
  {
    if reports == [] then 0
    else CountCorrect(reports[..|reports| - 1]) + (if reports[|reports| - 1].verdict.Correct? then 1 else 0)
  }

  /** Appending a report adds one to the count exactly when it is a correct answer. */
  lemma CountCorrectStep(reports: seq<RoundReport>, report: RoundReport)
    ensures CountCorrect(reports + [report]) == CountCorrect(reports) + (if report.verdict.Correct? then 1 else 0)
  {
    assert (reports + [report])[..|reports|] == reports;
  }

  /** The session loop of `curses_main` over a whole sequence, with the key
      pressed in round i given as `presses[i]`. */
  function Scored(sequence: seq<Round>, presses: seq<int>): Result<Session>
    requires |presses| == |sequence|
  {
    var reports :- Collect(JudgeSteps(sequence, presses));
    Ok(Session(CountCorrect(reports), reports))
  }

  /** A scored session has one report per round, each the judgement of that
      round, and its count of correct rounds never exceeds the number of rounds. */
  lemma ScoredSpec(sequence: seq<Round>, presses: seq<int>)
    requires |presses| == |sequence|
    ensures Scored(sequence, presses).Ok? <==> forall i :: 0 <= i < |sequence| ==> JudgeRound(sequence[i], presses[i]).Ok?
    ensures Scored(sequence, presses).Ok? ==>
      var session := Scored(sequence, presses).value;
      session.correctRounds <= |sequence| &&
      |session.reports| == |sequence| &&
      forall i :: 0 <= i < |sequence| ==> JudgeRound(sequence[i], presses[i]) == Ok(session.reports[i])
  {
    CollectSpec(JudgeSteps(sequence, presses));
  }

  /** One pass of the session loop's body: finds the notes to play, offers the
      options, reads the key pressed and judges it. */
  method PlayRound(round: Round, key: int) returns (r: Result<RoundReport>)
    ensures r == JudgeRound(round, key)
  {
    var notes := PlayedNotes(round.options, round.intervalIndex);
    if notes.Err? {
      return Err(notes.error);
    }
    var prompt := GenerateOptions(round.options);
    if prompt.Err? {
      return Err(prompt.error);
    }
    var (keys, labels) := prompt.value;
    var expected := KeyCode(round.intervalIndex);
    if expected.Err? {
      return Err(expected.error);
    }
    var verdict: Verdict;
    if key == expected.value {
      verdict := Correct;
    } else {
      if round.intervalIndex >= |labels| {
        return Err(IndexError);
      }
      verdict := Incorrect(labels[round.intervalIndex]);
    }
    r := Ok(RoundReport(notes.value, keys, labels, verdict));
  }

  /** The session loop: plays each round with the key pressed in it and counts
      the correct answers; the first failing round ends the session. */
  method Score(sequence: seq<Round>, presses: seq<int>) returns (r: Result<Session>)
    requires |presses| == |sequence|
    ensures r == Scored(sequence, presses)
  {
    var correctRounds := 0;
    var reports: seq<RoundReport> := [];
    ghost var steps := JudgeSteps(sequence, presses);
    for i := 0 to |sequence|
      invariant Collect(steps[..i]) == Ok(reports)
      invariant correctRounds == CountCorrect(reports) && correctRounds <= i
    {
      var judged := PlayRound(sequence[i], presses[i]);
      if judged.Err? {
        CollectFirstError(steps, i);
        return Err(judged.error);
      }
      var report := judged.value;
      if report.verdict.Correct? {
        correctRounds := correctRounds + 1;
      }
      CollectStep(steps, i, reports, report);
      CountCorrectStep(reports, report);
      reports := reports + [report];
    }
    assert steps[..|sequence|] == steps;
    r := Ok(Session(correctRounds, reports));
  }

  /** How many rounds were answered with the key `ord(str(interval_index + 1))`. */
  function KeyMatches(sequence: seq<Round>, presses: seq<int>): (n: nat)
    requires |presses| == |sequence|
    decreases |sequence|
  {
    if sequence == [] then 0
    else
      var last := |sequence| - 1;
      KeyMatches(sequence[..last], presses[..last]) + (if presses[last] == 49 + sequence[last].intervalIndex then 1 else 0)
  }

  /** The counter of a scored session is the number of rounds answered with the
      correct key. */
  lemma {:induction false} CountCorrectIsKeyMatches(sequence: seq<Round>, presses: seq<int>, reports: seq<RoundReport>)
    requires |presses| == |sequence| == |reports|
    requires forall i :: 0 <= i < |sequence| ==> JudgeRound(sequence[i], presses[i]) == Ok(reports[i])
    ensures CountCorrect(reports) == KeyMatches(sequence, presses)
    decreases |sequence|
  {
    if sequence != [] {
      var last := |sequence| - 1;
      assert forall i :: 0 <= i < last ==> JudgeRound(sequence[..last][i], presses[..last][i]) == Ok(reports[..last][i]);
      CountCorrectIsKeyMatches(sequence[..last], presses[..last], reports[..last]);
      assert JudgeRound(sequence[last], presses[last]) == Ok(reports[last]);
    }
  }

  /** The counter of a scored session. */
  lemma ScoredCountsKeyMatches(sequence: seq<Round>, presses: seq<int>)
    requires |presses| == |sequence| && Scored(sequence, presses).Ok?
    ensures Scored(sequence, presses).value.correctRounds == KeyMatches(sequence, presses)
  {
    ScoredSpec(sequence, presses);
    CountCorrectIsKeyMatches(sequence, presses, Scored(sequence, presses).value.reports);
  }

  /** Option k sits at position k, for every k. */
  predicate Indexed(options: seq<Choice>) {
    forall k :: 0 <= k < |options| ==> options[k].position == k
  }

  /** A round whose options sit at their own positions, all nameable, at most
      nine of them, with the correct position among them, is always judged: it
      plays the notes of the option at the correct position, accepts that
      option's key as the right answer, and otherwise shows that option's label. */
  lemma JudgeIndexedRound(round: Round, key: int)
    requires Indexed(round.options) && AllNamed(round.options)
    requires round.intervalIndex < |round.options| <= 9
    ensures JudgeRound(round, key).Ok?
    ensures var report := JudgeRound(round, key).value;
      var k := round.intervalIndex;
      k < |report.keys| && k < |report.labels| &&
      report.played == round.options[k].notes &&
      (report.verdict.Correct? <==> key == report.keys[k]) &&
      (report.verdict.Incorrect? ==> report.verdict.correctAnswer == report.labels[k])
  {
    var k := round.intervalIndex;
    PlayedIndexed(round.options, k);
    var prompt := GenerateOptions(round.options).value;
    assert KeyCode(k) == Ok(prompt.0[k]);
  }

  /** In options that sit at their own positions, the notes played for position
      k are those of option k. */
  lemma PlayedIndexed(options: seq<Choice>, k: nat)
    requires Indexed(options) && k < |options|
    ensures PlayedNotes(options, k) == Ok(options[k].notes)
  {
    assert options[k].position == k;
    var j :| 0 <= j < |options| && options[j].position == k && PlayedNotes(options, k).value == options[j].notes &&
      forall i :: 0 <= i < j ==> options[i].position != k;
    assert j == k;
  }

  /** The options of a well-formed round sit at their own positions and can all
      be named. */
  lemma WellFormedRoundIndexed(round: Round, names: seq<string>, order: seq<bool>, pitchOf: PitchOf)
    requires WellFormedRound(round, names, order, pitchOf)
    ensures Indexed(round.options) && AllNamed(round.options)
    ensures round.intervalIndex < |round.options| == |names|
  {
    var start, ascending :| start in NoteNames && ascending in order &&
      forall j :: 0 <= j < |names| ==>
        round.options[j] == Choice(j, names[j], NotePair(pitchOf(start, DefaultOctave), Offset(names[j]), ascending));
    forall j | 0 <= j < |round.options|
      ensures IntervalName(round.options[j].name).Ok?
    {
      IntervalNameOfEveryCode(names[j]);
    }
  }

  /** A generated session with at most nine codes is scored without error: round
      i plays the notes of its correct option, counts as correct exactly when the
      key pressed is that option's key, otherwise shows that option's label, and
      the counter is the number of correct keys, at most the number of rounds. */
  lemma GeneratedSessionScored(intervals: string, asc: bool, desc: bool, rounds: int, rng: nat -> nat, pitchOf: PitchOf,
                               presses: seq<int>)
    requires IntervalSequence(intervals, asc, desc, rounds, rng, pitchOf).Ok?
    requires |Split(intervals, ',')| <= 9
    requires |presses| == |IntervalSequence(intervals, asc, desc, rounds, rng, pitchOf).value|
    ensures var sequence := IntervalSequence(intervals, asc, desc, rounds, rng, pitchOf).value;
      Scored(sequence, presses).Ok? &&
      var session := Scored(sequence, presses).value;
      session.correctRounds == KeyMatches(sequence, presses) &&
      session.correctRounds <= |sequence| &&
      |session.reports| == |sequence| &&
      forall i :: 0 <= i < |sequence| ==>
        var round := sequence[i];
        var report := session.reports[i];
        var k := round.intervalIndex;
        k < |round.options| && k < |report.keys| && k < |report.labels| &&
        report.played == round.options[k].notes &&
        (report.verdict.Correct? <==> presses[i] == report.keys[k]) &&
        (report.verdict.Incorrect? ==> report.verdict.correctAnswer == report.labels[k])
  {
    var sequence := IntervalSequence(intervals, asc, desc, rounds, rng, pitchOf).value;
    var names := Split(intervals, ',');
    var order := DirectionOrder(asc, desc);
    IntervalSequenceRounds(intervals, asc, desc, rounds, rng, pitchOf);
    forall i | 0 <= i < |sequence|
      ensures JudgeRound(sequence[i], presses[i]).Ok?
    {
      WellFormedRoundIndexed(sequence[i], names, order, pitchOf);
      JudgeIndexedRound(sequence[i], presses[i]);
    }
    ScoredSpec(sequence, presses);
    ScoredCountsKeyMatches(sequence, presses);
    var session := Scored(sequence, presses).value;
    forall i | 0 <= i < |sequence|
      ensures var round := sequence[i];
        var report := session.reports[i];
        var k := round.intervalIndex;
        k < |round.options| && k < |report.keys| && k < |report.labels| &&
        report.played == round.options[k].notes &&
        (report.verdict.Correct? <==> presses[i] == report.keys[k]) &&
        (report.verdict.Incorrect? ==> report.verdict.correctAnswer == report.labels[k])
    {
      WellFormedRoundIndexed(sequence[i], names, order, pitchOf);
      JudgeIndexedRound(sequence[i], presses[i]);
    }
  }
}
