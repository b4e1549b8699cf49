# musescore-22edo-tuner core libraries in Dafny

This project models four helper libraries of the 22-EDO tuner plugin for MuseScore and proves properties about them.

- **Accidentals** (`accidentals.dfy`, from `source/libs/AccidentalUtils.js`).
  - ACCIDENTAL_DATA is the closed catalogue of the 136 accidentals the plugin knows. For each one it records whether the host spells it through the tonal pitch class alone ("TPC"), and which offset in cents the host already renders ("DEFAULT_OFFSET").
  - getAccidentalName turns the host's numeric accidental type into one of those names.
  - The names are a family tag plus the sign's own name: ten enumerations that follow the source's order in consecutive runs.
  - The host's `Accidental` enumeration values are not visible. The model takes them as a parameter `codeOf`.
- **Fifths** (`fifths.dfy`, from `source/libs/TuningUtils.js`).
  - CIRCLE_OF_FIFTHS_DISTANCE is the position of 49 spelled note names on the circle of fifths, counted from C.
  - circleOfFifthsDistance is the difference of two positions. Each argument is a note object (its tpc minus 14) or a spelled name. Any other argument type throws.
- **NoteLetters** (`noteletters.dfy`, from `source/libs/NoteUtils.js`).
  - getNoteLetter is the letter of a note, from the JavaScript (truncating) remainder of its tpc by 7.
  - getOctave is the octave of a MIDI pitch.
- **JsStrings** (`jsstrings.dfy`) models the JavaScript string built-ins the TSV code relies on:
  - a global `replace` with a literal pattern;
  - `split` and `join` on one separator character;
  - `trim`, over the white space and line terminators of sections 12.2 and 12.3 of ECMA-262.
- **TextRows** (`textrows.dfy`, from `source/libs/StringUtils.js`).
  - formatForTsv escapes a field.
  - parseTsvRow splits a row on tabs and unescapes each field; it is a method with a loop that overwrites the array of pieces.
  - removeEmptyRows drops blank lines; it is a method with a backwards loop that splices blank rows out of the sequence of lines, then joins what is left.
- **Host** (`host.dfy`) holds the host's note object (tpc1, tpc2, pitch, accidentalType) and the tpc mode ("tpc1" or "tpc2").
- **Options** (`options.dfy`) holds the option type that lookups and matches return.

A call that throws in the source returns an error constructor of the result datatype (`OutOfBound`, `Unrecognised`, `UnsupportedN1`, `UnsupportedN2`). A missing table key makes the source return NaN; the model returns `NotANumber`.

## Model

| member | source | states |
|---|---|---|
| Accidentals.AccidentalData | source/libs/AccidentalUtils.js:21-702 | `ACCIDENTAL_DATA[name]`, total on the 136 names (no contract of its own; TpcMeansZeroOffset, StandardNotatedNames, ZeroOffsetWithoutTpc, MirroredOffsetsAreNegated and SagittalSignsDoNotFollowNames state its properties) |
| Accidentals.StandardData | source/libs/AccidentalUtils.js:22-76 | the Standard entries as written (no contract of its own; see AccidentalData) |
| Accidentals.QuarterArrowData | source/libs/AccidentalUtils.js:77-136 | the QuarterArrow entries as written (no contract of its own; see AccidentalData) |
| Accidentals.SlashedData | source/libs/AccidentalUtils.js:137-176 | the Slashed entries as written (no contract of its own; see AccidentalData) |
| Accidentals.CommaArrowData | source/libs/AccidentalUtils.js:177-326 | the CommaArrow entries as written (no contract of its own; see AccidentalData) |
| Accidentals.CommaData | source/libs/AccidentalUtils.js:327-366 | the Comma entries as written (no contract of its own; see AccidentalData) |
| Accidentals.EqualTemperedData | source/libs/AccidentalUtils.js:367-401 | the EqualTempered entries as written (no contract of its own; see AccidentalData) |
| Accidentals.EdoData | source/libs/AccidentalUtils.js:402-451 | the Edo entries as written (no contract of its own; see AccidentalData) |
| Accidentals.PersianData | source/libs/AccidentalUtils.js:452-461 | the Persian entries as written (no contract of its own; see AccidentalData) |
| Accidentals.TwelfthData | source/libs/AccidentalUtils.js:462-571 | the Twelfth entries as written (no contract of its own; see AccidentalData) |
| Accidentals.SagittalData | source/libs/AccidentalUtils.js:572-701 | the Sagittal entries as written (no contract of its own; see AccidentalData) |
| Accidentals.TpcMeansZeroOffset | source/libs/AccidentalUtils.js:22-71 | every entry flagged TPC has default offset 0 |
| Accidentals.StandardNotatedNames | source/libs/AccidentalUtils.js:22-701 | the TPC flag is true exactly on the twelve names NONE … NATURAL_SHARP, SIX_TWELFTH_FLAT and SIX_TWELFTH_SHARP |
| Accidentals.ZeroOffsetWithoutTpc | source/libs/AccidentalUtils.js:72-401 | the converse fails: SHARP_SHARP, the slashed FLAT_SLASH2, FLAT_SLASH, SHARP_SLASH3 and SHARP_SLASH2, and every sign of the CommaArrow, Comma and EqualTempered families are TPC false with offset 0 |
| Accidentals.MirroredOffsetsAreNegated | source/libs/AccidentalUtils.js:402-571 | FLAT_n and SHARP_n (n = 17, 19, 23, 31, 53) and k_TWELFTH_FLAT and k_TWELFTH_SHARP have opposite offsets and the same TPC flag |
| Accidentals.SagittalSignsDoNotFollowNames | source/libs/AccidentalUtils.js:672-691 | the sagittal pairs do not mirror by name: SHARP5CD is -92.2, SHARP5V7KD 92.2, FLAT5CU -107.9, FLAT5V7KU 107.9 |
| Accidentals.MatchStandard | source/libs/AccidentalUtils.js:720-751 | a sign found for a code has that code |
| Accidentals.MatchQuarterArrow | source/libs/AccidentalUtils.js:753-787 | a sign found for a code has that code |
| Accidentals.MatchSlashed | source/libs/AccidentalUtils.js:789-811 | a sign found for a code has that code |
| Accidentals.MatchCommaArrow | source/libs/AccidentalUtils.js:813-901 | a sign found for a code has that code |
| Accidentals.MatchComma | source/libs/AccidentalUtils.js:903-925 | a sign found for a code has that code |
| Accidentals.MatchEqualTempered | source/libs/AccidentalUtils.js:927-946 | a sign found for a code has that code |
| Accidentals.MatchEdo | source/libs/AccidentalUtils.js:948-976 | a sign found for a code has that code |
| Accidentals.MatchPersian | source/libs/AccidentalUtils.js:978-982 | a sign found for a code has that code |
| Accidentals.MatchTwelfth | source/libs/AccidentalUtils.js:984-1048 | a sign found for a code has that code |
| Accidentals.MatchSagittal | source/libs/AccidentalUtils.js:1050-1126 | a sign found for a code has that code |
| Accidentals.GetAccidentalName | source/libs/AccidentalUtils.js:712-716 | a code below 0 or from 256 up gives the out-of-bound error before any matching; an in-range code never does |
| Accidentals.NamedCodeMatches | source/libs/AccidentalUtils.js:718-1126 | a returned name belongs to an in-range code and has that code |
| Accidentals.UnrecognisedExactly | source/libs/AccidentalUtils.js:1128-1129 | the "Unrecognised" error is raised exactly for in-range codes that no name carries |
| Accidentals.GetAccidentalNameInverse | source/libs/AccidentalUtils.js:718-1126 | when distinct names have distinct codes, the code of a name n in [0, 256) maps back to n |
| Fifths.TableLookup | source/libs/TuningUtils.js:36-44 | `CIRCLE_OF_FIFTHS_DISTANCE[name]` over the constant `CircleOfFifthsRows`, which holds the 49 entries in their source rows; None stands for the `undefined` of a missing key at lines 59 and 74 (no contract of its own; the table lemmas below state its properties) |
| Fifths.TableEntry | source/libs/TuningUtils.js:36-44 | row r, column c of the table is the letter F C G D A E B with r - 3 sharps, at value (c - 1) + 7 (r - 3) |
| Fifths.SpellingInjective | source/libs/TuningUtils.js:36-44 | distinct letters or sharp counts give distinct names |
| Fifths.SpelledNamesAreKeys | source/libs/TuningUtils.js:36-44 | the name with letter index i and k sharps ("x" counting two) is a key and its value is i + 7 k |
| Fifths.EntryIsKey | source/libs/TuningUtils.js:36-44 | each name listed in the table is found by the lookup |
| Fifths.KeyHasEntry | source/libs/TuningUtils.js:36-44 | a name found by the lookup is listed in the table with the value found |
| Fifths.EntryValue | source/libs/TuningUtils.js:36-44 | the value listed with a spelled name is its letter index plus 7 times its sharps |
| Fifths.PositionsAreValues | source/libs/TuningUtils.js:36-44 | every integer from -22 to 26 is the value of a key |
| Fifths.EntryAtItsPosition | source/libs/TuningUtils.js:36-44 | every listed value lies in -22..26 and names its entry |
| Fifths.KeysAreNamesAtTheirPositions | source/libs/TuningUtils.js:36-44 | every key's value lies in -22..26, and the key is the name at that position |
| Fifths.TableInjective | source/libs/TuningUtils.js:36-44 | two keys with the same value are the same key |
| Fifths.Position | source/libs/TuningUtils.js:52-75 | the value one typeof switch gives a supported argument: tpc minus 14 for a note object, the table lookup for a name (no contract of its own; NoteDistance, SpelledDistance and NoteAgainstName state the values) |
| Fifths.CircleOfFifthsDistance | source/libs/TuningUtils.js:49-82 | the n1 type error comes first, then the n2 type error; NaN exactly when both are supported and one has no position |
| Fifths.DistanceToItself | source/libs/TuningUtils.js:81 | a supported input is at distance 0 from itself; a name missing from the table gives NaN even against itself |
| Fifths.DistanceAntisymmetric | source/libs/TuningUtils.js:81 | swapping the arguments negates the distance |
| Fifths.DistanceAdditive | source/libs/TuningUtils.js:81 | distance(a, b) + distance(b, c) = distance(a, c) |
| Fifths.NoteAgainstName | source/libs/TuningUtils.js:54-59 | a note is at distance 0 from a name exactly when the name's value is the note's tpc minus 14 |
| Fifths.NoteDistance | source/libs/TuningUtils.js:54-81 | between two note objects the bias cancels: the distance is the difference of the tpcs |
| Fifths.SpelledDistance | source/libs/TuningUtils.js:36-81 | between two spelled names the distance is the difference of the letter indices plus 7 times the difference of the sharps |
| Fifths.SharpFAndFlatBAgainstC | source/libs/TuningUtils.js:36-81 | "F#" is at distance 6 from "C", and "Bb" at distance -2 |
| Fifths.TpcFourteenIsC | source/libs/TuningUtils.js:54-56 | tpc 14 is at distance 0 from "C" |
| Host.Tpc | source/libs/NoteUtils.js:26 | `note[tpcMode]`, also read at source/libs/TuningUtils.js:55 and 70 (no contract of its own; a plain field selection) |
| NoteLetters.JsRemainderBy7 | source/libs/NoteUtils.js:26 | the truncating remainder: strictly between -7 and 7, with the sign of the dividend, congruent to it, and r or r + 7 is the Euclidean remainder |
| NoteLetters.GetNoteLetter | source/libs/NoteUtils.js:26-53 | every integer tpc gets a one-letter result from C G D A E B F (no remainder falls through) |
| NoteLetters.GetNoteLetterByFifths | source/libs/NoteUtils.js:28-53 | the letter is position (tpc mod 7) of C, G, D, A, E, B, F |
| NoteLetters.GetNoteLetterPeriodic | source/libs/NoteUtils.js:26-53 | tpc + 7 has the same letter as tpc, across zero too |
| NoteLetters.LetterOfSpelledName | source/libs/NoteUtils.js:26-53 | for every table name, a note with tpc value + 14 gets the name's first letter |
| NoteLetters.GetOctave | source/libs/NoteUtils.js:62 | the octave o satisfies 12 (o + 1) <= pitch < 12 (o + 2), so it is floor(pitch / 12) - 1 |
| NoteLetters.MiddleCOctave | source/libs/NoteUtils.js:62 | pitch 60 is in octave 4 and pitch 59 in octave 3 |
| NoteLetters.GetOctaveShift | source/libs/NoteUtils.js:62 | pitch + 12 is one octave higher |
| NoteLetters.GetOctaveMonotone | source/libs/NoteUtils.js:62 | a higher pitch never has a lower octave |
| JsStrings.ReplaceAll | source/libs/StringUtils.js:43-46 | the JavaScript built-in `replace` with a global literal pattern, used at lines 30-33 and 43-46: one left-to-right scan that replaces non-overlapping matches (no contract of its own; the ReplaceAll lemmas state its properties) |
| JsStrings.ReplaceAllRemoves | source/libs/StringUtils.js:43-46 | replacing each c by a string without c leaves no c |
| JsStrings.ReplaceAllKeepsAbsent | source/libs/StringUtils.js:43-46 | a character in neither the string nor the replacement is absent from the result |
| JsStrings.ReplaceCharAppend | source/libs/StringUtils.js:43-46 | replacing a one-character pattern distributes over concatenation |
| JsStrings.Split | source/libs/StringUtils.js:27 | split gives one piece more than there are separators, and no piece contains the separator |
| JsStrings.Join | source/libs/StringUtils.js:64 | the JavaScript built-in `join`, with no pieces giving "" (no contract of its own; JoinSplit and SplitJoin relate it to Split) |
| JsStrings.JoinSplit | source/libs/StringUtils.js:56 | joining the pieces of a split gives back the string |
| JsStrings.SplitJoin | source/libs/StringUtils.js:64 | splitting a join of one or more separator-free pieces gives back the pieces |
| JsStrings.SplitWithoutSeparator | source/libs/StringUtils.js:27 | a string without the separator splits into itself alone |
| JsStrings.SplitTrailingSeparator | source/libs/StringUtils.js:56 | a trailing separator adds one empty last piece |
| JsStrings.Trim | source/libs/StringUtils.js:59 | the JavaScript built-in `trim` (no contract of its own; TrimEmpty states when it gives "") |
| JsStrings.TrimEmpty | source/libs/StringUtils.js:59 | trim gives "" exactly when every character is JavaScript white space |
| TextRows.FormatForTsv | source/libs/StringUtils.js:41-48 | the four global replacements in source order (no contract of its own; FormatForTsvHasNoControlCharacters, TsvRoundTrip and TabDoesNotRoundTrip state its properties) |
| TextRows.UnescapeField | source/libs/StringUtils.js:30-33 | the four replacements of the loop body in source order (no contract of its own; the Unescaping lemmas and TsvRoundTrip state its properties) |
| TextRows.ParsedRow | source/libs/StringUtils.js:25-36 | the parsed row has one field more than the row has tabs |
| TextRows.ParseTsvRow | source/libs/StringUtils.js:25-36 | the loop leaves exactly the unescaped pieces of the split, one more than there are tabs |
| TextRows.FormatForTsvHasNoControlCharacters | source/libs/StringUtils.js:43-46 | the output of formatForTsv has no tab, line feed or carriage return |
| TextRows.ReplacingLineBreaks | source/libs/StringUtils.js:45-46 | the line-feed and carriage-return escapes together are the per-character escape of both |
| TextRows.FormatWithoutTabsOrBackslashes | source/libs/StringUtils.js:43-46 | on a string with no tab and no backslash, formatForTsv only escapes line breaks |
| TextRows.OtherEscapesAbsent | source/libs/StringUtils.js:30-31 | on such an escaped string the `\t` and `\\` unescapes change nothing |
| TextRows.UnescapingLineFeeds | source/libs/StringUtils.js:32 | unescaping `\n` undoes the line-feed escape |
| TextRows.UnescapingReturns | source/libs/StringUtils.js:33 | unescaping `\r` undoes the carriage-return escape |
| TextRows.TsvRoundTrip | source/libs/StringUtils.js:25-48 | for a string with no tab and no backslash, parsing the formatted string gives that string as the only field |
| TextRows.TabDoesNotRoundTrip | source/libs/StringUtils.js:30-31 | a lone tab is formatted as backslash, backslash, t and parsed back as backslash, tab, not as the tab |
| TextRows.NonBlankRows | source/libs/StringUtils.js:57-63 | the kept rows are no more than the input rows, none is blank, and each is an input row |
| TextRows.NonBlankRowsAppend | source/libs/StringUtils.js:57-63 | filtering distributes over concatenation, so order is kept |
| TextRows.NonBlankRowsOfNonBlank | source/libs/StringUtils.js:57-63 | rows that are all non-blank are kept as they are |
| TextRows.RemovedEmptyRows | source/libs/StringUtils.js:51-53 | the result is never empty and ends with a line feed |
| TextRows.RemoveEmptyRows | source/libs/StringUtils.js:54-65 | the backwards splicing loop gives the non-blank rows joined, plus a line feed (invariant: the rows after i are non-blank, the rows up to i are untouched) |
| TextRows.RemovedEmptyRowsLines | source/libs/StringUtils.js:56-64 | the lines of the result, the final line feed aside, are exactly the input's non-blank lines in order; with none, the result is "\n" |
| TextRows.RemoveEmptyRowsIdempotent | source/libs/StringUtils.js:54-65 | removing empty rows twice is the same as once |

## Left out

- An accidental name returned by getAccidentalName is always an ACCIDENTAL_DATA key. The model shows this by its types: `AccidentalData` is total on the name datatype, so no lemma is needed.
- The host's `Accidental` enumeration values are not visible. They are the parameter `codeOf`. GetAccidentalNameInverse assumes they are injective, and its requires takes them in [0, 256).
- The `parseInt("" + note.accidentalType)` conversion (source/libs/AccidentalUtils.js:712) is not modelled: the accidental type is an integer on input.
- The text of the thrown error messages is not modelled. The error constructors keep the offending code or type name.
- Fifths.CircleOfFifthsDistance: JavaScript's `typeof null == "object"` and objects without a tpc field are not modelled. A note object always has both tpc fields, and the tpc mode is one of "tpc1" and "tpc2". For another mode the source reads `undefined` and returns NaN.
- NoteLetters.GetNoteLetter: it reads the same `note[tpcMode]` and takes the mode from the same two. For another mode the source's switch matches no case and returns `undefined`.
- The JavaScript default `tpcMode = "tpc1"` of getNoteLetter (source/libs/NoteUtils.js:24) and circleOfFifthsDistance (source/libs/TuningUtils.js:49) is not modelled as a default: the mode is always an explicit argument.
- Fifths.CircleOfFifthsDistance: an argument of another type carries its `typeof` name. That name is never "object" or "string" (the subset type `OtherTypeName`), so it is always the name of a type that really throws.
- Fifths.CircleOfFifthsDistance: a name missing from the table gives NaN in the source. The model returns an explicit `NotANumber` outcome, not a precondition.
- Strings are sequences of Unicode scalar values, not JavaScript UTF-16 code units. `trim` is modelled on that set.
- TextRows.ParseTsvRow and TextRows.RemoveEmptyRows work on a local array or sequence and return a sequence. The caller's array is never shared, so no aliasing is lost.
- `roundToOneDecimalDigit` (source/libs/StringUtils.js:70-90) is left out: float rounding, number-to-string conversion and console output.
- `JUST_FIFTH`, `DEFAULT_FIFTH`, `SMALLEST_DIATONIC_FIFTH`, `LARGEST_DIATONIC_FIFTH` and `SYNTONIC_COMMA` (source/libs/TuningUtils.js:20-33) are left out: floating-point constants and `Math.log2`.
- `source/libs/IterationUtils.js` is left out: score traversal through host objects and callbacks.
- `source/libs/DateUtils.js` is left out: it reads the wall clock.
- `out/Generate22EDOPlugin.py` is left out: a build script that copies files and writes a zip archive.
- The per-note cents-offset resolution, the per-measure accidental memory and custom key signatures use these tables. Their code is not among these files and is not part of this model.
