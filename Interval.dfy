/** `pyeartrainer/trainer/interval.py`: the interval tables, the naming of an
    interval code, the construction of one note pair, and the generator of a
    whole quiz session. A note is modelled by its pitch number (`int(note)` in
    mingus); turning a note name and an octave into that number is done by the
    external mingus library and is a parameter (`PitchOf`) here. */
module Interval {
  import opened Wrappers
  import opened Builtins
  import opened Utils

  /** The start notes a round may draw from, exactly as the source lists them
      (with 'E#' and without 'F#'). */
  const NoteNames: seq<string> := ["C", "C#", "D", "D#", "E", "E#", "F", "G", "G#", "A", "A#", "B"]

  /** Quality letter to quality word. */
  const QualityNames: map<char, string> :=
    map['P' := "perfect", 'm' := "minor", 'M' := "major", 'd' := "diminished", 'A' := "augmented"]

  /** Interval number to number word. */
  const NumberNames: map<int, string> :=
    map[1 := "unison", 2 := "second", 3 := "third", 4 := "fourth",
        5 := "fifth", 6 := "sixth", 7 := "seventh", 8 := "octave"]

  /** The octave of every start note the generator builds. */
  const DefaultOctave := 4

  /** `int(Note(name, octave))` of mingus: the pitch number of a named note. */
  type PitchOf = (string, int) -> int

  /** `_next_note`: the pitch `semitones` above `start`. */
  function NextNote(start: int, semitones: int): int {
    start + semitones
  }

  /** Steps compose and undo: going `a` then `b` semitones is going `a + b`,
      and going back `a` semitones returns to the start. */
  lemma NextNoteComposes(start: int, a: int, b: int)
    ensures NextNote(NextNote(start, a), b) == NextNote(start, a + b)
    ensures NextNote(NextNote(start, a), -a) == start
  {
  }

  /** The thirteen interval functions `_P1_d2` … `_P8_A7`, each shared by an
      enharmonic pair of codes. */
  datatype IntervalFn =
    | P1_d2 | m2_A1 | M2_d3 | m3_A2 | M3_d4 | P4_A3 | d5_A4
    | P5_d6 | m6_A5 | M6_d7 | m7_A6 | M7_d8 | P8_A7

  /** How many semitones the second note of an interval function lies above the first. */
  function Semitones(f: IntervalFn): (n: nat)
    ensures n <= 12
  {
    match f
    case P1_d2 => 0
    case m2_A1 => 1
    case M2_d3 => 2
    case m3_A2 => 3
    case M3_d4 => 4
    case P4_A3 => 5
    case d5_A4 => 6
    case P5_d6 => 7
    case m6_A5 => 8
    case M6_d7 => 9
    case m7_A6 => 10
    case M7_d8 => 11
    case P8_A7 => 12
  }

  /** Calling an interval function on a start note: the start note and the note above it. */
  function Apply(f: IntervalFn, start: int): (pair: (int, int))
    ensures pair.0 == start && pair.1 - pair.0 == Semitones(f)
  {
    match f
    case P1_d2 => (start, start)
    case _ => (start, NextNote(start, Semitones(f)))
  }

  /** `INTERVAL_NAME_FUNC_DICT`: the 26 recognised codes. */
  const IntervalFunctions: map<string, IntervalFn> :=
    map["P1" := P1_d2, "d2" := P1_d2, "m2" := m2_A1, "A1" := m2_A1,
        "M2" := M2_d3, "d3" := M2_d3, "m3" := m3_A2, "A2" := m3_A2,
        "M3" := M3_d4, "d4" := M3_d4, "P4" := P4_A3, "A3" := P4_A3,
        "d5" := d5_A4, "A4" := d5_A4, "P5" := P5_d6, "d6" := P5_d6,
        "m6" := m6_A5, "A5" := m6_A5, "M6" := M6_d7, "d7" := M6_d7,
        "m7" := m7_A6, "A6" := m7_A6, "M7" := M7_d8, "d8" := M7_d8,
        "P8" := P8_A7, "A7" := P8_A7]

  /** The semitone distance of a recognised code. */
  function Offset(code: string): (n: nat)
    requires code in IntervalFunctions
    ensures n <= 12
  {
    Semitones(IntervalFunctions[code])
  }

  /** The thirteen enharmonic pairs, the pair at position n being the codes `n` semitones wide. */
  const EnharmonicPairs: seq<(string, string)> :=
    [("P1", "d2"), ("m2", "A1"), ("M2", "d3"), ("m3", "A2"), ("M3", "d4"), ("P4", "A3"), ("d5", "A4"),
     ("P5", "d6"), ("m6", "A5"), ("M6", "d7"), ("m7", "A6"), ("M7", "d8"), ("P8", "A7")]

  /** Both codes of pair n are recognised, share one interval function and are n semitones wide. */
  lemma EnharmonicPairsShareOffset(n: int)
    requires 0 <= n < 13
    ensures EnharmonicPairs[n].0 in IntervalFunctions && EnharmonicPairs[n].1 in IntervalFunctions
    ensures IntervalFunctions[EnharmonicPairs[n].0] == IntervalFunctions[EnharmonicPairs[n].1]
    ensures Offset(EnharmonicPairs[n].0) == n && Offset(EnharmonicPairs[n].1) == n
  {
    if n < 3 {
      SmallPairsShareOffset(n);
    } else if n < 7 {
      MiddlePairsShareOffset(n);
    } else {
      LargePairsShareOffset(n);
    }
  }

  /** `EnharmonicPairsShareOffset` for the pairs from the unison to the major second. */
  lemma SmallPairsShareOffset(n: int)
    requires 0 <= n < 3
    ensures EnharmonicPairs[n].0 in IntervalFunctions && EnharmonicPairs[n].1 in IntervalFunctions
    ensures IntervalFunctions[EnharmonicPairs[n].0] == IntervalFunctions[EnharmonicPairs[n].1]
    ensures Offset(EnharmonicPairs[n].0) == n && Offset(EnharmonicPairs[n].1) == n
  {
    if n == 0 { assert EnharmonicPairs[n] == ("P1", "d2"); }
    else if n == 1 { assert EnharmonicPairs[n] == ("m2", "A1"); }
    else { assert EnharmonicPairs[n] == ("M2", "d3"); }
  }

  /** `EnharmonicPairsShareOffset` for the pairs from the minor third to the tritone. */
  lemma MiddlePairsShareOffset(n: int)
    requires 3 <= n < 7
    ensures EnharmonicPairs[n].0 in IntervalFunctions && EnharmonicPairs[n].1 in IntervalFunctions
    ensures IntervalFunctions[EnharmonicPairs[n].0] == IntervalFunctions[EnharmonicPairs[n].1]
    ensures Offset(EnharmonicPairs[n].0) == n && Offset(EnharmonicPairs[n].1) == n
  {
    if n == 3 { assert EnharmonicPairs[n] == ("m3", "A2"); }
    else if n == 4 { assert EnharmonicPairs[n] == ("M3", "d4"); }
    else if n == 5 { assert EnharmonicPairs[n] == ("P4", "A3"); }
    else { assert EnharmonicPairs[n] == ("d5", "A4"); }
  }

  /** `EnharmonicPairsShareOffset` for the pairs from the fifth to the octave. */
  lemma LargePairsShareOffset(n: int)
    requires 7 <= n < 13
    ensures EnharmonicPairs[n].0 in IntervalFunctions && EnharmonicPairs[n].1 in IntervalFunctions
    ensures IntervalFunctions[EnharmonicPairs[n].0] == IntervalFunctions[EnharmonicPairs[n].1]
    ensures Offset(EnharmonicPairs[n].0) == n && Offset(EnharmonicPairs[n].1) == n
  {
    if n == 7 { assert EnharmonicPairs[n] == ("P5", "d6"); }
    else if n == 8 { assert EnharmonicPairs[n] == ("m6", "A5"); }
    else if n == 9 { assert EnharmonicPairs[n] == ("M6", "d7"); }
    else if n == 10 { assert EnharmonicPairs[n] == ("m7", "A6"); }
    else if n == 11 { assert EnharmonicPairs[n] == ("M7", "d8"); }
    else { assert EnharmonicPairs[n] == ("P8", "A7"); }
  }

  /** Every recognised code belongs to the pair of its own offset, so each offset
      0..12 has exactly the two codes of one enharmonic pair, and there are 26 codes. */
  lemma IntervalTableIsPairs(code: string)
    requires code in IntervalFunctions
    ensures code == EnharmonicPairs[Offset(code)].0 || code == EnharmonicPairs[Offset(code)].1
    ensures EnharmonicPairs[Offset(code)].0 != EnharmonicPairs[Offset(code)].1
  {
  }

  /** `get_interval_name`: "<quality word> <number word>" for a code whose first
      character is a quality letter and whose second is a digit 1..8. Characters
      after the second are ignored and membership in the interval table is not
      checked. The exceptions are raised in the order Python evaluates the
      expression: indexing, quality lookup, indexing, `int()`, number lookup. */
  function IntervalName(short: string): (r: Result<string>)
    ensures r.Ok? <==> |short| >= 2 && short[0] in QualityNames && '1' <= short[1] <= '8'
    ensures r.Ok? ==> r.value == QualityNames[short[0]] + " " + NumberNames[short[1] as int - 48]
    ensures |short| == 0 ==> r == Err(IndexError)
    ensures |short| >= 1 && short[0] !in QualityNames ==> r == Err(KeyError)
    ensures |short| == 1 && short[0] in QualityNames ==> r == Err(IndexError)
    ensures |short| >= 2 && short[0] in QualityNames && !IsDigit(short[1]) ==> r == Err(ValueError)
    ensures |short| >= 2 && short[0] in QualityNames && short[1] in "09" ==> r == Err(KeyError)
  {
    if |short| == 0 then Err(IndexError)
    else if short[0] !in QualityNames then Err(KeyError)
    else if |short| == 1 then Err(IndexError)
    else
      var n :- IntOfChar(short[1]);
      if n !in NumberNames then Err(KeyError)
      else Ok(QualityNames[short[0]] + " " + NumberNames[n])
  }

  /** Every code of the interval table has a name. */
  lemma IntervalNameOfEveryCode(code: string)
    requires code in IntervalFunctions
    ensures IntervalName(code).Ok?
  {
  }

  /** Only the first two characters of a code matter for its name. */
  lemma IntervalNameIgnoresTail(short: string)
    requires |short| >= 2
    ensures IntervalName(short) == IntervalName(short[..2])
  {
  }

  /** Named examples: "m2", "A4", the unlisted "P3", and the failing "z9". */
  lemma IntervalNameExamples()
    ensures IntervalName("m2") == Ok("minor second")
    ensures IntervalName("A4") == Ok("augmented fourth")
    ensures IntervalName("P3") == Ok("perfect third")
    ensures IntervalName("z9") == Err(KeyError)
  {
    assert "m2"[0] == 'm' && "m2"[1] == '2';
    assert "minor" + " " + "second" == "minor second";
    assert "A4"[0] == 'A' && "A4"[1] == '4';
    assert "augmented" + " " + "fourth" == "augmented fourth";
    assert "P3"[0] == 'P' && "P3"[1] == '3';
    assert "perfect" + " " + "third" == "perfect third";
    assert "z9"[0] == 'z';
  }

  /** The quality letter of a quality word; the inverse of `QualityNames`. */
  function QualityLetter(word: string): (r: Result<char>)
    ensures r.Ok? ==> r.value in QualityNames && QualityNames[r.value] == word
  {
    if word == "perfect" then Ok('P')
    else if word == "minor" then Ok('m')
    else if word == "major" then Ok('M')
    else if word == "diminished" then Ok('d')
    else if word == "augmented" then Ok('A')
    else Err(KeyError)
  }

  /** The digit of a number word; the inverse of `NumberNames`. */
  function NumberDigit(word: string): (r: Result<char>)
    ensures r.Ok? ==> IsDigit(r.value) && r.value as int - 48 in NumberNames && NumberNames[r.value as int - 48] == word
  {
    if word == "unison" then Ok('1')
    else if word == "second" then Ok('2')
    else if word == "third" then Ok('3')
    else if word == "fourth" then Ok('4')
    else if word == "fifth" then Ok('5')
    else if word == "sixth" then Ok('6')
    else if word == "seventh" then Ok('7')
    else if word == "octave" then Ok('8')
    else Err(KeyError)
  }

  /** The two-character code a long interval name stands for. */
  function IntervalCode(long: string): Result<string> {
    var words := Split(long, ' ');
    if |words| != 2 then Err(ValueError)
    else
      var quality :- QualityLetter(words[0]);
      var number :- NumberDigit(words[1]);
      Ok([quality, number])
  }

  /** Every quality word is read back as its letter and holds no space. */
  lemma QualityWordsReadBack(c: char)
    requires c in QualityNames
    ensures ' ' !in QualityNames[c] && QualityLetter(QualityNames[c]) == Ok(c)
  {
  }

  /** Every number word is read back as its digit and holds no space. */
  lemma NumberWordsReadBack(n: int)
    requires n in NumberNames
    ensures ' ' !in NumberNames[n] && NumberDigit(NumberNames[n]) == Ok(DigitChar(n))
  {
  }

  /** A long interval name determines its code: reading it back gives the first
      two characters of the code it was built from. */
  lemma IntervalCodeOfName(short: string)
    requires IntervalName(short).Ok?
    ensures IntervalCode(IntervalName(short).value) == Ok(short[..2])
  {
    var quality := QualityNames[short[0]];
    var number := NumberNames[short[1] as int - 48];
    QualityWordsReadBack(short[0]);
    NumberWordsReadBack(short[1] as int - 48);
    SplitAtSeparator(quality, number, ' ');
    SplitPiece(number, ' ');
    assert Split(IntervalName(short).value, ' ') == [quality, number];
    assert [short[0], short[1]] == short[..2];
  }

  /** The two pitches of an interval `semitones` wide above `start`, lower one
      first when ascending and higher one first otherwise. */
  function NotePair(start: int, semitones: nat, ascending: bool): (notes: seq<int>)
    ensures |notes| == 2
  {
    if ascending then [start, start + semitones] else [start + semitones, start]
  }

  /** `generate_interval`: the two notes of interval `name` from note `start` in
      `octave`, in sounding order; a KeyError for a code outside the table. */
  function GenerateInterval(name: string, start: string, octave: int, ascending: bool, pitchOf: PitchOf)
    : (r: Result<seq<int>>)
    ensures r.Ok? <==> name in IntervalFunctions
    ensures r.Err? ==> r.error == KeyError
    ensures r.Ok? ==> r.value == NotePair(pitchOf(start, octave), Offset(name), ascending)
  {
    var startNote := pitchOf(start, octave);
    if name !in IntervalFunctions then Err(KeyError)
    else
      var interval := Apply(IntervalFunctions[name], startNote);
      Ok(if ascending then [interval.0, interval.1] else [interval.1, interval.0])
  }

  /** The two notes differ by the code's offset; ascending starts on the start
      note, descending is the ascending pair reversed. */
  lemma GenerateIntervalShape(name: string, start: string, octave: int, pitchOf: PitchOf)
    requires name in IntervalFunctions
    ensures var up := GenerateInterval(name, start, octave, true, pitchOf).value;
            var down := GenerateInterval(name, start, octave, false, pitchOf).value;
            |up| == 2 && up[0] == pitchOf(start, octave) && up[1] - up[0] == Offset(name) &&
            down == [up[1], up[0]]
  {
  }

  /** One answer option of a round: its position, its code and its note pair. */
  datatype Choice = Choice(position: nat, name: string, notes: seq<int>)

  /** One quiz round: its index in the session, the position of the correct
      option, and one option per configured code. */
  datatype Round = Round(index: nat, intervalIndex: nat, options: seq<Choice>)

  /** The `order` list a round's direction is drawn from (true = ascending). */
  function DirectionOrder(asc: bool, desc: bool): (order: seq<bool>)
    ensures |order| == 2
  {
    if asc && desc then [true, false] else if desc then [false, false] else [true, true]
  }

  /** Both flags: either direction; only `desc`: always descending; `asc` only
      or neither flag: always ascending. */
  lemma DirectionPolicy(asc: bool, desc: bool)
    ensures true in DirectionOrder(asc, desc) <==> asc || !desc
    ensures false in DirectionOrder(asc, desc) <==> desc
  {
  }

  /** With both flags set every round can be drawn in either direction. */
  lemma BothDirectionsDrawable(ascending: bool)
    ensures exists draw: nat :: RandomPick(ListArg(DirectionOrder(true, true)), draw) == Ok(ascending)
  {
    RandomPickReachesAll(DirectionOrder(true, true), if ascending then 0 else 1);
  }

  /** Every code of the list is in the interval table. */
  predicate AllKnown(names: seq<string>) {
    forall k :: 0 <= k < |names| ==> names[k] in IntervalFunctions
  }

  /** Option `j` of a round: code j and its pair from the round's start note and
      direction; a KeyError for an unknown code. */
  function OptionAt(names: seq<string>, j: nat, start: string, ascending: bool, pitchOf: PitchOf): Result<Choice>
    requires j < |names|
  {
    var notes :- GenerateInterval(names[j], start, DefaultOctave, ascending, pitchOf);
    Ok(Choice(j, names[j], notes))
  }

  /** The steps of the inner loop, one per configured code, in list order. */
  function OptionSteps(names: seq<string>, start: string, ascending: bool, pitchOf: PitchOf)
    : (steps: seq<Result<Choice>>)
    ensures |steps| == |names|
    ensures forall j :: 0 <= j < |names| ==> steps[j] == OptionAt(names, j, start, ascending, pitchOf)
  {
    seq(|names|, j requires 0 <= j < |names| => OptionAt(names, j, start, ascending, pitchOf))
  }

  /** Round `i`: draw the target code (draw 3i), the direction (draw 3i+1) and
      the start note (draw 3i+2), then build every option. */
  function MakeRound(names: seq<string>, order: seq<bool>, i: nat, rng: nat -> nat, pitchOf: PitchOf)
    : (r: Result<Round>)
    ensures r.Ok? ==> r.value.index == i
  {
    var name :- RandomPick(ListArg(names), rng(3 * i));
    var intervalIndex := IndexOf(names, name);
    var ascending :- RandomPick(ListArg(order), rng(3 * i + 1));
    var start := RandomPick(ListArg(NoteNames), rng(3 * i + 2)).value;
    var options :- Collect(OptionSteps(names, start, ascending, pitchOf));
    Ok(Round(i, intervalIndex, options))
  }

  /** The inner loop of `generate_interval_sequence`: one option per code, in
      list order, stopping at the first unknown code. */
  method BuildOptions(names: seq<string>, start: string, ascending: bool, pitchOf: PitchOf)
    returns (r: Result<seq<Choice>>)
    ensures r == Collect(OptionSteps(names, start, ascending, pitchOf))
  {
    ghost var steps := OptionSteps(names, start, ascending, pitchOf);
    var options: seq<Choice> := [];
    for j := 0 to |names|
      invariant Collect(steps[..j]) == Ok(options)
    {
      var interval := GenerateInterval(names[j], start, DefaultOctave, ascending, pitchOf);
      if interval.Err? {
        CollectFirstError(steps, j);
        return Err(interval.error);
      }
      CollectStep(steps, j, options, Choice(j, names[j], interval.value));
      options := options + [Choice(j, names[j], interval.value)];
    }
    assert steps[..|names|] == steps;
    r := Ok(options);
  }

  /** The steps of the outer loop, one per round. */
  function RoundSteps(names: seq<string>, order: seq<bool>, n: nat, rng: nat -> nat, pitchOf: PitchOf)
    : (steps: seq<Result<Round>>)
    ensures |steps| == n
    ensures forall i :: 0 <= i < n ==> steps[i] == MakeRound(names, order, i, rng, pitchOf)
  {
    seq(n, i requires 0 <= i < n => MakeRound(names, order, i, rng, pitchOf))
  }

  /** `generate_interval_sequence` as a function of its arguments and of the
      random draws: `range(0, rounds)` is empty for a negative `rounds`. */
  function IntervalSequence(intervals: string, asc: bool, desc: bool, rounds: int, rng: nat -> nat, pitchOf: PitchOf)
    : Result<seq<Round>>
  {
    var n := if rounds < 0 then 0 else rounds;
    Collect(RoundSteps(Split(intervals, ','), DirectionOrder(asc, desc), n, rng, pitchOf))
  }

  /** The options succeed exactly when every code is known; option j is then
      `(j, names[j], pair)` with the pair of code j from the shared start note and
      direction. */
  lemma OptionsSpec(names: seq<string>, start: string, ascending: bool, pitchOf: PitchOf)
    ensures Collect(OptionSteps(names, start, ascending, pitchOf)).Ok? <==> AllKnown(names)
    ensures Collect(OptionSteps(names, start, ascending, pitchOf)).Err? ==>
      Collect(OptionSteps(names, start, ascending, pitchOf)).error == KeyError
    ensures Collect(OptionSteps(names, start, ascending, pitchOf)).Ok? ==>
      var options := Collect(OptionSteps(names, start, ascending, pitchOf)).value;
      |options| == |names| &&
      forall j :: 0 <= j < |names| ==>
        options[j] == Choice(j, names[j], NotePair(pitchOf(start, DefaultOctave), Offset(names[j]), ascending))
  {
    var steps := OptionSteps(names, start, ascending, pitchOf);
    CollectSpec(steps);
    assert forall j :: 0 <= j < |names| ==> (steps[j].Ok? <==> names[j] in IntervalFunctions);
    if Collect(steps).Err? {
      var k :| 0 <= k < |steps| && steps[k] == Err(Collect(steps).error);
    }
  }

  /** Round `i` succeeds exactly when every code is known; otherwise it raises a KeyError. */
  lemma MakeRoundOk(names: seq<string>, order: seq<bool>, i: nat, rng: nat -> nat, pitchOf: PitchOf)
    requires |names| > 0 && |order| > 0
    ensures MakeRound(names, order, i, rng, pitchOf).Ok? <==> AllKnown(names)
    ensures MakeRound(names, order, i, rng, pitchOf).Err? ==> MakeRound(names, order, i, rng, pitchOf).error == KeyError
  {
    var start := RandomPick(ListArg(NoteNames), rng(3 * i + 2)).value;
    var ascending := RandomPick(ListArg(order), rng(3 * i + 1)).value;
    OptionsSpec(names, start, ascending, pitchOf);
  }

  /** Which round `i` is drawn, when every code is known. */
  lemma MakeRoundSpec(names: seq<string>, order: seq<bool>, i: nat, rng: nat -> nat, pitchOf: PitchOf)
    requires |names| > 0 && |order| > 0 && AllKnown(names)
    ensures MakeRound(names, order, i, rng, pitchOf).Ok?
    ensures var round := MakeRound(names, order, i, rng, pitchOf).value;
      var start := NoteNames[rng(3 * i + 2) % |NoteNames|];
      var ascending := order[rng(3 * i + 1) % |order|];
      round.index == i &&
      round.intervalIndex == IndexOf(names, names[rng(3 * i) % |names|]) &&
      |round.options| == |names| &&
      forall j :: 0 <= j < |names| ==>
        round.options[j] == Choice(j, names[j], NotePair(pitchOf(start, DefaultOctave), Offset(names[j]), ascending))
  {
    RandomPickIndex(names, rng(3 * i));
    RandomPickIndex(order, rng(3 * i + 1));
    RandomPickIndex(NoteNames, rng(3 * i + 2));
    OptionsSpec(names, NoteNames[rng(3 * i + 2) % |NoteNames|], order[rng(3 * i + 1) % |order|], pitchOf);
  }

  /** What a round of a generated session guarantees: the correct position is in
      range and is the first occurrence of its code; there is one option per
      code, in list order; all pairs share one start note (in octave 4) and one
      allowed direction, and each is as wide as its code. */
  ghost predicate WellFormedRound(round: Round, names: seq<string>, order: seq<bool>, pitchOf: PitchOf) {
    round.intervalIndex < |names| &&
    (forall k :: 0 <= k < round.intervalIndex ==> names[k] != names[round.intervalIndex]) &&
    |round.options| == |names| &&
    AllKnown(names) &&
    exists start, ascending ::
      start in NoteNames && ascending in order &&
      forall j :: 0 <= j < |names| ==>
        round.options[j] == Choice(j, names[j], NotePair(pitchOf(start, DefaultOctave), Offset(names[j]), ascending))
  }

  /** A round drawn from a list of known codes is well formed. */
  lemma MakeRoundWellFormed(names: seq<string>, order: seq<bool>, i: nat, rng: nat -> nat, pitchOf: PitchOf)
    requires |names| > 0 && |order| > 0 && AllKnown(names)
    ensures MakeRound(names, order, i, rng, pitchOf).Ok?
    ensures MakeRound(names, order, i, rng, pitchOf).value.index == i
    ensures WellFormedRound(MakeRound(names, order, i, rng, pitchOf).value, names, order, pitchOf)
  {
    MakeRoundSpec(names, order, i, rng, pitchOf);
    var start := NoteNames[rng(3 * i + 2) % |NoteNames|];
    var ascending := order[rng(3 * i + 1) % |order|];
    assert start in NoteNames && ascending in order;
  }

  /** `generate_interval_sequence` returns `max(rounds, 0)` rounds; its only
      failure is the KeyError of an unknown code, raised exactly when there is a
      round to build. */
  lemma IntervalSequenceOk(intervals: string, asc: bool, desc: bool, rounds: int, rng: nat -> nat, pitchOf: PitchOf)
    ensures var r := IntervalSequence(intervals, asc, desc, rounds, rng, pitchOf);
      (r.Ok? <==> rounds <= 0 || AllKnown(Split(intervals, ','))) &&
      (r.Err? ==> r.error == KeyError) &&
      (r.Ok? ==> |r.value| == (if rounds < 0 then 0 else rounds))
  {
    RoundStepsOk(Split(intervals, ','), DirectionOrder(asc, desc), if rounds < 0 then 0 else rounds, rng, pitchOf);
  }

  /** `n` rounds drawn from a non-empty code list and direction order succeed
      exactly when there are none or every code is known, failing with a KeyError. */
  lemma RoundStepsOk(names: seq<string>, order: seq<bool>, n: nat, rng: nat -> nat, pitchOf: PitchOf)
    requires |names| > 0 && |order| > 0
    ensures var r := Collect(RoundSteps(names, order, n, rng, pitchOf));
      (r.Ok? <==> n == 0 || AllKnown(names)) &&
      (r.Err? ==> r.error == KeyError) &&
      (r.Ok? ==> |r.value| == n)
  {
    var steps := RoundSteps(names, order, n, rng, pitchOf);
    CollectSpec(steps);
    var r := Collect(steps);
    if n > 0 {
      MakeRoundOk(names, order, 0, rng, pitchOf);
      if r.Err? {
        var k :| 0 <= k < n && steps[k] == Err(r.error);
        MakeRoundOk(names, order, k, rng, pitchOf);
      }
    }
  }

  /** Round i of a generated session carries index i and is well formed. */
  lemma IntervalSequenceRounds(intervals: string, asc: bool, desc: bool, rounds: int, rng: nat -> nat, pitchOf: PitchOf)
    ensures var r := IntervalSequence(intervals, asc, desc, rounds, rng, pitchOf);
      r.Ok? ==> forall i :: 0 <= i < |r.value| ==>
        r.value[i].index == i &&
        WellFormedRound(r.value[i], Split(intervals, ','), DirectionOrder(asc, desc), pitchOf)
  {
    var names := Split(intervals, ',');
    var order := DirectionOrder(asc, desc);
    var n := if rounds < 0 then 0 else rounds;
    var steps := RoundSteps(names, order, n, rng, pitchOf);
    var r: Result<seq<Round>> := Collect(steps);
    if r.Ok? {
      CollectSpec(steps);
      IntervalSequenceOk(intervals, asc, desc, rounds, rng, pitchOf);
      forall i | 0 <= i < |r.value|
        ensures r.value[i].index == i && WellFormedRound(r.value[i], names, order, pitchOf)
      {
        MakeRoundWellFormed(names, order, i, rng, pitchOf);
        assert steps[i] == MakeRound(names, order, i, rng, pitchOf);
      }
    }
  }

  /** In a well-formed round every pair sounds in an allowed direction: only
      `desc` set, the higher note first; `desc` not set, the lower note first. */
  lemma WellFormedRoundDirections(round: Round, names: seq<string>, asc: bool, desc: bool, pitchOf: PitchOf)
    requires WellFormedRound(round, names, DirectionOrder(asc, desc), pitchOf)
    ensures forall j :: 0 <= j < |round.options| ==>
      var c := round.options[j];
      c.name in IntervalFunctions && |c.notes| == 2 &&
      (desc && !asc ==> c.notes[0] == c.notes[1] + Offset(c.name)) &&
      (!desc ==> c.notes[1] == c.notes[0] + Offset(c.name))
  {
    var order := DirectionOrder(asc, desc);
    var start, ascending :| start in NoteNames && ascending in order &&
      forall j :: 0 <= j < |names| ==>
        round.options[j] == Choice(j, names[j], NotePair(pitchOf(start, DefaultOctave), Offset(names[j]), ascending));
    DirectionPolicy(asc, desc);
    assert desc && !asc ==> !ascending;
    assert !desc ==> ascending;
  }

  /** Only `desc` set: in every generated pair the higher note sounds first.
      `desc` not set: the lower note sounds first. */
  lemma GeneratedDirections(intervals: string, asc: bool, desc: bool, rounds: int, rng: nat -> nat, pitchOf: PitchOf)
    ensures var r := IntervalSequence(intervals, asc, desc, rounds, rng, pitchOf);
      r.Ok? ==> forall i, j :: 0 <= i < |r.value| && 0 <= j < |r.value[i].options| ==>
        var c := r.value[i].options[j];
        c.name in IntervalFunctions && |c.notes| == 2 &&
        (desc && !asc ==> c.notes[0] == c.notes[1] + Offset(c.name)) &&
        (!desc ==> c.notes[1] == c.notes[0] + Offset(c.name))
  {
    var r := IntervalSequence(intervals, asc, desc, rounds, rng, pitchOf);
    IntervalSequenceRounds(intervals, asc, desc, rounds, rng, pitchOf);
    if r.Ok? {
      forall i | 0 <= i < |r.value|
        ensures forall j :: 0 <= j < |r.value[i].options| ==>
          var c := r.value[i].options[j];
          c.name in IntervalFunctions && |c.notes| == 2 &&
          (desc && !asc ==> c.notes[0] == c.notes[1] + Offset(c.name)) &&
          (!desc ==> c.notes[1] == c.notes[0] + Offset(c.name))
      {
        WellFormedRoundDirections(r.value[i], Split(intervals, ','), asc, desc, pitchOf);
      }
    }
  }

  /** `generate_interval_sequence`: grows the session round by round, drawing
      the target code, the direction and the start note of each round and then
      building its options with the inner loop. */
  method GenerateIntervalSequence(intervals: string, asc: bool, desc: bool, rounds: int, rng: nat -> nat, pitchOf: PitchOf)
    returns (r: Result<seq<Round>>)
    ensures r == IntervalSequence(intervals, asc, desc, rounds, rng, pitchOf)
  {
    var names := Split(intervals, ',');
    var sequence: seq<Round> := [];
    var order: seq<bool>;
    if asc && desc {
      order := [true, false];
    } else if desc {
      order := [false, false];
    } else {
      order := [true, true];
    }
    var n := if rounds < 0 then 0 else rounds;
    ghost var roundSteps := RoundSteps(names, order, n, rng, pitchOf);
    for i := 0 to n
      invariant Collect(roundSteps[..i]) == Ok(sequence)
    {
      var name := RandomPick(ListArg(names), rng(3 * i)).value;
      var intervalIndex := IndexOf(names, name);
      var ascending := RandomPick(ListArg(order), rng(3 * i + 1)).value;
      var start := RandomPick(ListArg(NoteNames), rng(3 * i + 2)).value;
      var options := BuildOptions(names, start, ascending, pitchOf);
      if options.Err? {
        assert roundSteps[i] == Err(options.error);
        CollectFirstError(roundSteps, i);
        return Err(options.error);
      }
      assert roundSteps[i] == Ok(Round(i, intervalIndex, options.value));
      CollectStep(roundSteps, i, sequence, Round(i, intervalIndex, options.value));
      sequence := sequence + [Round(i, intervalIndex, options.value)];
    }
    assert roundSteps[..n] == roundSteps;
    r := Ok(sequence);
  }
}
