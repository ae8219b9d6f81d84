# pyeartrainer — a verified model of the interval quiz

pyeartrainer is a terminal ear-training game. A session is a list of rounds.
Each round plays one musical interval, a pair of notes, picked at random from
the interval codes the player configured (such as `m2`, `P5` or `A4`). It then
lists every configured code as a numbered option. The player answers with the
digit key of the interval they heard, and the game counts the correct answers.

This project models the logic of that game in Dafny:

- `Wrappers.dfy`: Python's exceptions become an `Err` result. `Collect` runs a
  list of steps from left to right and stops at the first failure, as a Python
  loop that appends does.
- `Builtins.dfy`: the Python built-ins the core relies on. These are
  `str.split`, `list.index`, `str(n)`, `ord`, and `int` on a single character.
- `Utils.dfy`: `random_pick`. The random generator is an oracle value.
- `Interval.dfy`: the note, quality and number tables; the thirteen interval
  functions and the table of 26 codes; `get_interval_name`;
  `generate_interval`; and `generate_interval_sequence`. The last is written
  as the method `GenerateIntervalSequence` with its two nested loops, and is
  proved equal to the function `IntervalSequence`.
- `App.dfy`: `generate_options` and the scoring loop of `curses_main`. The
  loop is the method `Score`, proved equal to `Scored`. The key pressed in
  each round is an input.

Conventions:

- A note is its pitch number, as `int(note)` gives it in mingus.
- Turning a note name and an octave into a pitch is done by mingus. Here it is
  a function parameter `pitchOf`.
- Randomness is an oracle `rng: nat -> nat`. Round `i` takes draw `3i` for the
  target code, draw `3i+1` for the direction and draw `3i+2` for the start
  note.
- `random.randint(lo, hi)` with draw `d` is `lo + d % (hi - lo + 1)`.

Behaviour of the code worth knowing:

- The interval table has 26 codes: thirteen enharmonic pairs, including `P8`
  and `A7`.
- The start-note list has `E#` and no `F#`.
- `get_interval_name` does not check the interval table. Any code whose first
  character is a quality letter and whose second is a digit from 1 to 8 gets
  a name, for example `P3`.
- A negative round count gives an empty session rather than an error.
- `split(',')` never yields an empty list, so `random_pick` never fails on the
  code list.
- With ten or more codes, `generate_options` raises a TypeError, because
  `ord('10')` is rejected. The model keeps that failure.

## Model

| member | source | states |
|---|---|---|
| Builtins.Split | pyeartrainer/trainer/interval.py:131 | `str.split` on one separator yields at least one piece, and no piece contains the separator |
| Builtins.JoinSplit | pyeartrainer/trainer/interval.py:131 | joining the pieces with the separator gives back the original string |
| Builtins.SplitJoin | pyeartrainer/trainer/interval.py:131 | splitting a join of separator-free pieces gives back the pieces |
| Builtins.SplitAtSeparator | pyeartrainer/trainer/interval.py:131 | a separator-free prefix followed by the separator becomes the first piece |
| Builtins.IndexOf | pyeartrainer/trainer/interval.py:141 | `list.index` returns the first position that holds the element |
| Builtins.NatToString | pyeartrainer/app.py:145-146 | `str(n)` is all digits, has one character exactly when n < 10, and that character's code is 48 + n; from 10 on it has no leading zero |
| Builtins.DecimalValueOfNatToString | pyeartrainer/app.py:145-146 | reading `str(n)` as a decimal numeral gives back n |
| Builtins.OrdIdentifiesString | pyeartrainer/app.py:146 | `ord` succeeds on every one-character string, and two such strings get the same code exactly when they are equal |
| Builtins.IntOfChar | pyeartrainer/trainer/interval.py:119 | `int` of one character is its digit value, or ValueError for a non-digit |
| Utils.RandInt | pyeartrainer/trainer/utils.py:9 | `randint(lo, hi)` lies in `lo..hi`, and raises ValueError exactly when the range is empty |
| Utils.RandIntReachesAll | pyeartrainer/trainer/utils.py:9 | every value of a non-empty range is drawn by some oracle value |
| Utils.RandomPick | pyeartrainer/trainer/utils.py:5-9 | raises ValueError for a non-list and for the empty list; otherwise returns an element of the list |
| Utils.RandomPickIndex | pyeartrainer/trainer/utils.py:8-9 | the element picked is the one at the drawn index |
| Utils.RandomPickReachesAll | pyeartrainer/trainer/utils.py:8-9 | every element of a non-empty list can be the one picked |
| Interval.NextNoteComposes | pyeartrainer/trainer/interval.py:35-37 | `_next_note` (`NextNote`) steps compose: `a` then `b` semitones is `a + b`, and stepping back `a` returns to the start |
| Interval.Semitones | pyeartrainer/trainer/interval.py:40-102 | each interval function spans 0 to 12 semitones |
| Interval.Apply | pyeartrainer/trainer/interval.py:35-102 | an interval function returns the start note first and a second note its semitone count above it |
| Interval.Offset | pyeartrainer/trainer/interval.py:106-114 | every recognised code is at most an octave wide |
| Interval.EnharmonicPairsShareOffset | pyeartrainer/trainer/interval.py:106-114 | both codes of the n-th enharmonic pair are in the table, map to the same function and are n semitones wide |
| Interval.IntervalTableIsPairs | pyeartrainer/trainer/interval.py:106-114 | every code of the table is one of the two distinct codes of the pair its width selects |
| Interval.IntervalName | pyeartrainer/trainer/interval.py:117-119 | the name is "quality word, space, number word" exactly when the code has a quality letter and then a digit 1–8; otherwise the exception Python raises first (IndexError, KeyError, ValueError) |
| Interval.IntervalNameOfEveryCode | pyeartrainer/trainer/interval.py:106-119 | every code of the interval table can be named |
| Interval.IntervalNameIgnoresTail | pyeartrainer/trainer/interval.py:119 | only the first two characters of a code decide its name |
| Interval.IntervalNameExamples | pyeartrainer/trainer/interval.py:14-32 | "m2" is "minor second", "A4" is "augmented fourth", the unlisted "P3" is "perfect third", and "z9" raises KeyError |
| Interval.QualityLetter | pyeartrainer/trainer/interval.py:14-20 | a quality word read back maps to its own letter in the quality table |
| Interval.NumberDigit | pyeartrainer/trainer/interval.py:23-32 | a number word read back maps to a digit whose number has that word |
| Interval.QualityWordsReadBack | pyeartrainer/trainer/interval.py:14-20 | every quality word has no space and reads back as its letter |
| Interval.NumberWordsReadBack | pyeartrainer/trainer/interval.py:23-32 | every number word has no space and reads back as its digit |
| Interval.IntervalCodeOfName | pyeartrainer/trainer/interval.py:117-119 | a long name determines its code: reading it back gives the code's first two characters, so different codes that can be named get different names |
| Interval.NotePair | pyeartrainer/trainer/interval.py:126 | a generated interval is always two notes |
| Interval.GenerateInterval | pyeartrainer/trainer/interval.py:122-126 | succeeds exactly for codes in the table, raising KeyError otherwise; the two notes are the start pitch and the pitch the code's width above it, in the requested order |
| Interval.GenerateIntervalShape | pyeartrainer/trainer/interval.py:122-126 | the ascending pair starts on the start note, and the descending pair is that pair reversed |
| Interval.DirectionOrder | pyeartrainer/trainer/interval.py:133-138 | the direction list always has two entries |
| Interval.DirectionPolicy | pyeartrainer/trainer/interval.py:133-138 | ascending can be drawn exactly when `asc` is set or `desc` is not; descending exactly when `desc` is set |
| Interval.BothDirectionsDrawable | pyeartrainer/trainer/interval.py:133-134 | with both flags set, either direction can be drawn |
| Interval.OptionsSpec | pyeartrainer/trainer/interval.py:144-147 | a round's options succeed exactly when every code is known, failing with KeyError; option j is (j, code j, the pair of code j from the shared start note and direction) |
| Interval.MakeRound | pyeartrainer/trainer/interval.py:140-148 | the outer loop's body: a round built for index i carries index i; its success and KeyError are stated by `MakeRoundOk`, its contents by `MakeRoundSpec` |
| Interval.MakeRoundOk | pyeartrainer/trainer/interval.py:139-148 | a round succeeds exactly when every code is known, and raises KeyError otherwise |
| Interval.MakeRoundSpec | pyeartrainer/trainer/interval.py:139-148 | round i is fixed by its three draws: the target code, the first position of that code, the direction and the start note |
| Interval.MakeRoundWellFormed | pyeartrainer/trainer/interval.py:139-148 | a round drawn from known codes carries index i and is well formed: the correct position is in range and is the first occurrence of its code, and there is one option per code sharing one start note and one allowed direction |
| Interval.IntervalSequenceOk | pyeartrainer/trainer/interval.py:129-149 | a session has `max(rounds, 0)` rounds; it fails, with KeyError, exactly when there is a round to build and some code is unknown |
| Interval.RoundStepsOk | pyeartrainer/trainer/interval.py:139-148 | n rounds over a non-empty code list succeed exactly when n is 0 or every code is known, failing with KeyError |
| Interval.IntervalSequenceRounds | pyeartrainer/trainer/interval.py:139-148 | round i of a session has index i and is well formed |
| Interval.WellFormedRoundDirections | pyeartrainer/trainer/interval.py:133-146 | in a well-formed round, only `desc` set puts the higher note first, and `desc` unset puts the lower note first |
| Interval.GeneratedDirections | pyeartrainer/trainer/interval.py:129-149 | every pair of a generated session sounds in a direction the flags allow |
| Interval.BuildOptions | pyeartrainer/trainer/interval.py:144-147 | the inner loop builds the options by appending, equal to running the option steps and stopping at the first unknown code |
| Interval.GenerateIntervalSequence | pyeartrainer/trainer/interval.py:129-149 | the nested loops that append build exactly the session `IntervalSequence` describes, including its KeyError |
| App.OptionLabel | pyeartrainer/app.py:145 | a label fails exactly when its code cannot be named, and then with the naming error; `str` of the number never fails |
| App.OptionLabelReadsBack | pyeartrainer/app.py:145 | a label of one of the first nine options reads back: its first character is the option's digit, then ". ", then a name that gives back the code's first two characters |
| App.KeyCode | pyeartrainer/app.py:146 | the key code for option i is 49 + i (the digit i+1); for i ≥ 9 `ord` raises TypeError |
| App.LabelStepsSpec | pyeartrainer/app.py:145 | the label list succeeds exactly when every code can be named, else fails with the naming error of the first option that cannot be named; label k is option k's number, ". " and its name |
| App.KeyStepsSpec | pyeartrainer/app.py:146 | the key list succeeds exactly for at most nine options, else raises TypeError; key i is 49 + i |
| App.GenerateOptions | pyeartrainer/app.py:144-147 | `generate_options` succeeds exactly when every code can be named and there are at most nine options; a naming error wins (the first unnamed option's error), else more than nine options raise TypeError; key i is 49 + i and label k is option k's number, ". " and its name |
| App.LabelsMatchKeys | pyeartrainer/app.py:145-146 | when option k sits at position k, label k starts with the character whose code is key k, then ". " |
| App.PlayedNotes | pyeartrainer/app.py:116 | the notes played are those of the first option at the correct position; IndexError when there is none |
| App.JudgeRound | pyeartrainer/app.py:116-132 | a judged round is correct exactly when the key pressed is 49 + the correct position |
| App.PlayRound | pyeartrainer/app.py:116-132 | one pass of the loop body computes exactly the judgement of the round |
| App.CountCorrect | pyeartrainer/app.py:114-129 | the counter never exceeds the number of rounds |
| App.CountCorrectStep | pyeartrainer/app.py:128-129 | each round adds one to the counter exactly when it is answered correctly |
| App.ScoredSpec | pyeartrainer/app.py:113-132 | scoring succeeds exactly when every round can be judged; then there is one report per round, each that round's judgement, and the counter is at most the number of rounds |
| App.Score | pyeartrainer/app.py:113-132 | the session loop computes exactly `Scored`, stopping at the first round that raises |
| App.CountCorrectIsKeyMatches | pyeartrainer/app.py:128-129 | the counter equals the number of rounds answered with the key `ord(str(interval_index + 1))` |
| App.ScoredCountsKeyMatches | pyeartrainer/app.py:113-129 | the counter of a scored session is that number of matching keys |
| App.PlayedIndexed | pyeartrainer/app.py:116 | when options sit at their own positions, position k plays option k's notes |
| App.JudgeIndexedRound | pyeartrainer/app.py:116-132 | a round with indexed, nameable options (at most nine) that include the correct position never raises; it plays the correct option, accepts exactly that option's key, and otherwise shows that option's label |
| App.WellFormedRoundIndexed | pyeartrainer/trainer/interval.py:144-147 | the options of a generated round sit at their own positions and can all be named |
| App.GeneratedSessionScored | pyeartrainer/app.py:113-132 | a generated session with at most nine codes is scored without error; round i plays its correct option, is correct exactly when the key pressed is that option's key, otherwise shows that option's label, and the counter is the number of correct keys, at most the number of rounds |

## Left out

- Command-line parsing and loading of the YAML level file (`pyeartrainer/app.py:24-67`) are configuration I/O. The model takes the code list, the direction flags and the round count as parameters.
- Audio (fluidsynth set-up and `play_Bar`) and `create_bar`, which builds a mingus bar from the two notes, are left out: they only produce sound. The model keeps the notes played in each round report.
- App.JudgeRound: does not model the IndexError `create_bar` raises when the correct option has fewer than two notes (it reads `notes[0]` and `notes[1]`, `pyeartrainer/app.py:152-153`). Generated rounds never have such an option, because every generated pair has two notes (`NotePair`, `MakeRoundWellFormed`).
- Terminal drawing with curses (clearing, prompts, "press SPACE to continue") is output only. The labels and the verdict it would show are kept in each report.
- The accuracy ratio printed at the end (`pyeartrainer/app.py:139`) is left out. It is floating-point formatting. Its ZeroDivisionError for an empty session is not modelled either.
- `input.wait_key` is not part of this model. The key returned in each round is an input, and the model does not require it to be one of the offered keys.
- `app.py` builds the session through `interval.IntervalTrainer`, which `interval.py` does not define. The model uses `GenerateIntervalSequence` directly, and `IntervalName` in place of `trainer.get_interval_name`.
- mingus `Note(name, octave)` is the parameter `pitchOf`. mingus's validation of note names is not modelled, since every start note comes from the fixed note list. Nor is the spelling of the notes `Note().from_int` returns: a note is its pitch number only.
- Python's generator and the uniform distribution of `random.randint` are abstracted by the oracle `rng`. The model states which element each draw selects and that every element is reachable, not how likely it is.
- Builtins.IntOfChar: accepts only ASCII digits. Python's `int` also accepts other Unicode decimal digits, so `IntervalName` would name a code such as "P" followed by an Arabic-Indic three, where the model raises ValueError.
- Interval.IntervalTableIsPairs: the size of the table (26 codes) is shown through its thirteen pairs of two distinct codes, not as a cardinality of the map's keys.
- Python's default arguments are not modelled as defaults: `octave=4, asc=True` of `generate_interval` and `asc=True, desc=True, rounds=20` of `generate_interval_sequence` are explicit parameters of `GenerateInterval` and `IntervalSequence`/`GenerateIntervalSequence`. The generator always passes the octave `DefaultOctave` (4), so no behaviour of the core is lost.
- `setup.py`, packaging and the rest of `pyeartrainer/tui` are not part of this model.
