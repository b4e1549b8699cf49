/**
 * The circle-of-fifths index of source/libs/TuningUtils.js: the table
 * CIRCLE_OF_FIFTHS_DISTANCE, which places each spelled note name at its
 * signed number of fifths from C, and circleOfFifthsDistance, which
 * subtracts the positions of two notes given either as spelled names or as
 * note objects.
 */
module Fifths {
  import opened Options
  import opened Host

  /**
   * CIRCLE_OF_FIFTHS_DISTANCE as written in the source: seven rows of seven
   * (name, fifths from C) entries, from the triple flats to the triple sharps.
   * A JavaScript object literal, looked up by key through TableLookup.
   */
  const CircleOfFifthsRows: seq<seq<(string, int)>> := [
    [("Fbbb", -22), ("Cbbb", -21), ("Gbbb", -20), ("Dbbb", -19), ("Abbb", -18), ("Ebbb", -17), ("Bbbb", -16)],
    [("Fbb", -15), ("Cbb", -14), ("Gbb", -13), ("Dbb", -12), ("Abb", -11), ("Ebb", -10), ("Bbb", -9)],
    [("Fb", -8), ("Cb", -7), ("Gb", -6), ("Db", -5), ("Ab", -4), ("Eb", -3), ("Bb", -2)],
    [("F", -1), ("C", 0), ("G", 1), ("D", 2), ("A", 3), ("E", 4), ("B", 5)],
    [("F#", 6), ("C#", 7), ("G#", 8), ("D#", 9), ("A#", 10), ("E#", 11), ("B#", 12)],
    [("Fx", 13), ("Cx", 14), ("Gx", 15), ("Dx", 16), ("Ax", 17), ("Ex", 18), ("Bx", 19)],
    [("F#x", 20), ("C#x", 21), ("G#x", 22), ("D#x", 23), ("A#x", 24), ("E#x", 25), ("B#x", 26)]
  ]

  /** The value stored under `name` in one row, the first entry with that key. */
  function RowLookup(row: seq<(string, int)>, name: string): Option<int>
  {
    if row == [] then None
    else if row[0].0 == name then Some(row[0].1)
    else RowLookup(row[1..], name)
  }

  /** The value stored under `name` in the first row that has that key. */
  function RowsLookup(rows: seq<seq<(string, int)>>, name: string): Option<int>
  {
    if rows == [] then None
    else if RowLookup(rows[0], name).Some? then RowLookup(rows[0], name)
    else RowsLookup(rows[1..], name)
  }

  /**
   * `CIRCLE_OF_FIFTHS_DISTANCE[name]`; None stands for the `undefined` that
   * JavaScript yields for a name that is not a key.
   */
  function TableLookup(name: string): Option<int>
  {
    RowsLookup(CircleOfFifthsRows, name)
  }

  /** A value found in a row is stored there under the name looked up. */
  lemma {:induction false} RowLookupSound(row: seq<(string, int)>, name: string)
    ensures RowLookup(row, name).Some? ==>
      exists c :: 0 <= c < |row| && row[c] == (name, RowLookup(row, name).value)
  {
    if row != [] && row[0].0 != name {
      RowLookupSound(row[1..], name);
      if RowLookup(row, name).Some? {
        var c :| 0 <= c < |row[1..]| && row[1..][c] == (name, RowLookup(row, name).value);
        assert row[c + 1] == row[1..][c];
      }
    }
  }

  /** A name stored in a row is found there. */
  lemma {:induction false} RowLookupComplete(row: seq<(string, int)>, name: string, c: int)
    requires 0 <= c < |row| && row[c].0 == name
    ensures RowLookup(row, name).Some?
  {
    if row[0].0 != name {
      assert row[1..][c - 1] == row[c];
      RowLookupComplete(row[1..], name, c - 1);
    }
  }

  /** A value found in the rows is stored there under the name looked up. */
  lemma {:induction false} RowsLookupSound(rows: seq<seq<(string, int)>>, name: string)
    ensures RowsLookup(rows, name).Some? ==>
      exists r, c :: 0 <= r < |rows| && 0 <= c < |rows[r]| && rows[r][c] == (name, RowsLookup(rows, name).value)
  {
    if rows != [] {
      RowLookupSound(rows[0], name);
      if RowLookup(rows[0], name).None? {
        RowsLookupSound(rows[1..], name);
        if RowsLookup(rows, name).Some? {
          var r, c :| 0 <= r < |rows[1..]| && 0 <= c < |rows[1..][r]| && rows[1..][r][c] == (name, RowsLookup(rows, name).value);
          assert rows[r + 1] == rows[1..][r];
        }
      }
    }
  }

  /** A name stored in the rows is found there. */
  lemma {:induction false} RowsLookupComplete(rows: seq<seq<(string, int)>>, name: string, r: int, c: int)
    requires 0 <= r < |rows| && 0 <= c < |rows[r]| && rows[r][c].0 == name
    ensures RowsLookup(rows, name).Some?
  {
    if r == 0 {
      RowLookupComplete(rows[0], name, c);
    } else if RowLookup(rows[0], name).None? {
      assert rows[1..][r - 1] == rows[r];
      RowsLookupComplete(rows[1..], name, r - 1, c);
    }
  }

  /** The letter at `index` fifths from C, for F (-1) to B (5). */
  function LetterName(index: int): char
    requires -1 <= index <= 5
  {
    "FCGDAEB"[index + 1]
  }

  /** The accidental written for `sharps` (negative for flats), "x" standing for two sharps. */
  function AccidentalSuffix(sharps: int): string
    requires -3 <= sharps <= 3
  {
    ["bbb", "bb", "b", "", "#", "x", "#x"][sharps + 3]
  }

  /** A spelled name: a letter and its accidental. */
  function Spelling(index: int, sharps: int): string
    requires -1 <= index <= 5 && -3 <= sharps <= 3
  {
    [LetterName(index)] + AccidentalSuffix(sharps)
  }

  /** Different letters or accidentals spell different names. */
  lemma SpellingInjective(i: int, s: int, j: int, t: int)
    requires -1 <= i <= 5 && -3 <= s <= 3 && -1 <= j <= 5 && -3 <= t <= 3
    ensures Spelling(i, s) == Spelling(j, t) ==> i == j && s == t
  {
    if Spelling(i, s) == Spelling(j, t) {
      assert Spelling(i, s)[0] == LetterName(i);
      assert AccidentalSuffix(s) == Spelling(i, s)[1..];
    }
  }

  /** The row of the names with three flats. */
  lemma TripleFlatRow(c: int)
    requires 0 <= c < 7
    ensures |CircleOfFifthsRows[0]| == 7
    ensures CircleOfFifthsRows[0][c] == (Spelling(c - 1, -3), c - 1 + 7 * -3)
  {
    if c == 0 { assert Spelling(-1, -3) == "Fbbb"; }
    else if c == 1 { assert Spelling(0, -3) == "Cbbb"; }
    else if c == 2 { assert Spelling(1, -3) == "Gbbb"; }
    else if c == 3 { assert Spelling(2, -3) == "Dbbb"; }
    else if c == 4 { assert Spelling(3, -3) == "Abbb"; }
    else if c == 5 { assert Spelling(4, -3) == "Ebbb"; }
    else if c == 6 { assert Spelling(5, -3) == "Bbbb"; }
  }

  /** The row of the names with two flats. */
  lemma DoubleFlatRow(c: int)
    requires 0 <= c < 7
    ensures |CircleOfFifthsRows[1]| == 7
    ensures CircleOfFifthsRows[1][c] == (Spelling(c - 1, -2), c - 1 + 7 * -2)
  {
    if c == 0 { assert Spelling(-1, -2) == "Fbb"; }
    else if c == 1 { assert Spelling(0, -2) == "Cbb"; }
    else if c == 2 { assert Spelling(1, -2) == "Gbb"; }
    else if c == 3 { assert Spelling(2, -2) == "Dbb"; }
    else if c == 4 { assert Spelling(3, -2) == "Abb"; }
    else if c == 5 { assert Spelling(4, -2) == "Ebb"; }
    else if c == 6 { assert Spelling(5, -2) == "Bbb"; }
  }

  /** The row of the names with one flat. */
  lemma FlatRow(c: int)
    requires 0 <= c < 7
    ensures |CircleOfFifthsRows[2]| == 7
    ensures CircleOfFifthsRows[2][c] == (Spelling(c - 1, -1), c - 1 + 7 * -1)
  {
    if c == 0 { assert Spelling(-1, -1) == "Fb"; }
    else if c == 1 { assert Spelling(0, -1) == "Cb"; }
    else if c == 2 { assert Spelling(1, -1) == "Gb"; }
    else if c == 3 { assert Spelling(2, -1) == "Db"; }
    else if c == 4 { assert Spelling(3, -1) == "Ab"; }
    else if c == 5 { assert Spelling(4, -1) == "Eb"; }
    else if c == 6 { assert Spelling(5, -1) == "Bb"; }
  }

  /** The row of the names with no accidental. */
  lemma NaturalRow(c: int)
    requires 0 <= c < 7
    ensures |CircleOfFifthsRows[3]| == 7
    ensures CircleOfFifthsRows[3][c] == (Spelling(c - 1, 0), c - 1 + 7 * 0)
  {
    if c == 0 { assert Spelling(-1, 0) == "F"; }
    else if c == 1 { assert Spelling(0, 0) == "C"; }
    else if c == 2 { assert Spelling(1, 0) == "G"; }
    else if c == 3 { assert Spelling(2, 0) == "D"; }
    else if c == 4 { assert Spelling(3, 0) == "A"; }
    else if c == 5 { assert Spelling(4, 0) == "E"; }
    else if c == 6 { assert Spelling(5, 0) == "B"; }
  }

  /** The row of the names with one sharp. */
  lemma SharpRow(c: int)
    requires 0 <= c < 7
    ensures |CircleOfFifthsRows[4]| == 7
    ensures CircleOfFifthsRows[4][c] == (Spelling(c - 1, 1), c - 1 + 7 * 1)
  {
    if c == 0 { assert Spelling(-1, 1) == "F#"; }
    else if c == 1 { assert Spelling(0, 1) == "C#"; }
    else if c == 2 { assert Spelling(1, 1) == "G#"; }
    else if c == 3 { assert Spelling(2, 1) == "D#"; }
    else if c == 4 { assert Spelling(3, 1) == "A#"; }
    else if c == 5 { assert Spelling(4, 1) == "E#"; }
    else if c == 6 { assert Spelling(5, 1) == "B#"; }
  }

  /** The row of the names with a double sharp ("x", two sharps). */
  lemma DoubleSharpRow(c: int)
    requires 0 <= c < 7
    ensures |CircleOfFifthsRows[5]| == 7
    ensures CircleOfFifthsRows[5][c] == (Spelling(c - 1, 2), c - 1 + 7 * 2)
  {
    if c == 0 { assert Spelling(-1, 2) == "Fx"; }
    else if c == 1 { assert Spelling(0, 2) == "Cx"; }
    else if c == 2 { assert Spelling(1, 2) == "Gx"; }
    else if c == 3 { assert Spelling(2, 2) == "Dx"; }
    else if c == 4 { assert Spelling(3, 2) == "Ax"; }
    else if c == 5 { assert Spelling(4, 2) == "Ex"; }
    else if c == 6 { assert Spelling(5, 2) == "Bx"; }
  }

  /** The row of the names with a sharp and a double sharp (three sharps). */
  lemma TripleSharpRow(c: int)
    requires 0 <= c < 7
    ensures |CircleOfFifthsRows[6]| == 7
    ensures CircleOfFifthsRows[6][c] == (Spelling(c - 1, 3), c - 1 + 7 * 3)
  {
    if c == 0 { assert Spelling(-1, 3) == "F#x"; }
    else if c == 1 { assert Spelling(0, 3) == "C#x"; }
    else if c == 2 { assert Spelling(1, 3) == "G#x"; }
    else if c == 3 { assert Spelling(2, 3) == "D#x"; }
    else if c == 4 { assert Spelling(3, 3) == "A#x"; }
    else if c == 5 { assert Spelling(4, 3) == "E#x"; }
    else if c == 6 { assert Spelling(5, 3) == "B#x"; }
  }

  /**
   * Entry `c` of row `r` spells letter c - 1 with r - 3 sharps and stores
   * c - 1 + 7 * (r - 3): the letter's index plus seven per sharp.
   */
  lemma TableEntry(r: int, c: int)
    requires 0 <= r < 7 && 0 <= c < 7
    ensures |CircleOfFifthsRows| == 7 && |CircleOfFifthsRows[r]| == 7
    ensures CircleOfFifthsRows[r][c] == (Spelling(c - 1, r - 3), c - 1 + 7 * (r - 3))
  {
    if r == 0 { TripleFlatRow(c); }
    else if r == 1 { DoubleFlatRow(c); }
    else if r == 2 { FlatRow(c); }
    else if r == 3 { NaturalRow(c); }
    else if r == 4 { SharpRow(c); }
    else if r == 5 { DoubleSharpRow(c); }
    else if r == 6 { TripleSharpRow(c); }
  }

  /** A name stored in the table is a key of it. */
  lemma EntryIsKey(name: string, r: int, c: int)
    requires 0 <= r < |CircleOfFifthsRows| && 0 <= c < |CircleOfFifthsRows[r]| && CircleOfFifthsRows[r][c].0 == name
    ensures TableLookup(name).Some?
  {
    RowsLookupComplete(CircleOfFifthsRows, name, r, c);
  }

  /** The value found for a key is stored beside it in some entry of the table. */
  lemma KeyHasEntry(name: string)
    requires TableLookup(name).Some?
    ensures exists r, c ::
      0 <= r < |CircleOfFifthsRows| && 0 <= c < |CircleOfFifthsRows[r]|
      && CircleOfFifthsRows[r][c] == (name, TableLookup(name).value)
  {
    RowsLookupSound(CircleOfFifthsRows, name);
  }

  /** The entry that spells a letter with an accidental stores the letter's index plus seven per sharp. */
  lemma EntryValue(name: string, v: int, index: int, sharps: int, r: int, c: int)
    requires -1 <= index <= 5 && -3 <= sharps <= 3 && name == Spelling(index, sharps)
    requires 0 <= r < |CircleOfFifthsRows| && 0 <= c < |CircleOfFifthsRows[r]| && CircleOfFifthsRows[r][c] == (name, v)
    ensures v == index + 7 * sharps
  {
    TableEntry(r, c);
    SpellingInjective(c - 1, r - 3, index, sharps);
  }

  /**
   * The law of the table: the name spelled by a letter and an accidental is
   * a key, and its value is the letter's index (F -1, C 0, G 1, D 2, A 3,
   * E 4, B 5) plus 7 times the number of sharps minus the number of flats.
   */
  lemma SpelledNamesAreKeys(index: int, sharps: int)
    requires -1 <= index <= 5 && -3 <= sharps <= 3
    ensures TableLookup(Spelling(index, sharps)) == Some(index + 7 * sharps)
  {
    var name := Spelling(index, sharps);
    TableEntry(sharps + 3, index + 1);
    EntryIsKey(name, sharps + 3, index + 1);
    KeyHasEntry(name);
    var r, c :| 0 <= r < |CircleOfFifthsRows| && 0 <= c < |CircleOfFifthsRows[r]|
      && CircleOfFifthsRows[r][c] == (name, TableLookup(name).value);
    EntryValue(name, TableLookup(name).value, index, sharps, r, c);
  }

  /**
   * The name at a position p of the circle: its letter is fixed by p + 1
   * modulo 7 and its accidental by p + 1 divided by 7.
   */
  function NameAtPosition(p: int): string
    requires -22 <= p <= 26
  {
    Spelling((p + 1) % 7 - 1, (p + 1) / 7)
  }

  /** Every position from -22 to 26 is the value of the name at that position. */
  lemma PositionsAreValues(p: int)
    requires -22 <= p <= 26
    ensures TableLookup(NameAtPosition(p)) == Some(p)
  {
    SpelledNamesAreKeys((p + 1) % 7 - 1, (p + 1) / 7);
  }

  /** Every entry of the table is the name at its own value, which lies in -22..26. */
  lemma EntryAtItsPosition(name: string, v: int, r: int, c: int)
    requires 0 <= r < |CircleOfFifthsRows| && 0 <= c < |CircleOfFifthsRows[r]| && CircleOfFifthsRows[r][c] == (name, v)
    ensures -22 <= v <= 26 && NameAtPosition(v) == name
  {
    TableEntry(r, c);
    assert v + 1 == c + 7 * (r - 3);
    assert (v + 1) % 7 == c && (v + 1) / 7 == r - 3;
  }

  /** Every key of the table is the name at its own value, which lies in -22..26. */
  lemma KeysAreNamesAtTheirPositions(name: string)
    ensures TableLookup(name).Some? ==>
      -22 <= TableLookup(name).value <= 26 && NameAtPosition(TableLookup(name).value) == name
  {
    if TableLookup(name).Some? {
      KeyHasEntry(name);
      var r, c :| 0 <= r < |CircleOfFifthsRows| && 0 <= c < |CircleOfFifthsRows[r]|
        && CircleOfFifthsRows[r][c] == (name, TableLookup(name).value);
      EntryAtItsPosition(name, TableLookup(name).value, r, c);
    }
  }

  /**
   * The table is a bijection between its keys and -22..26: distinct keys
   * have distinct values, and PositionsAreValues gives every position a key.
   */
  lemma TableInjective(a: string, b: string)
    ensures TableLookup(a).Some? && TableLookup(a) == TableLookup(b) ==> a == b
  {
    KeysAreNamesAtTheirPositions(a);
    KeysAreNamesAtTheirPositions(b);
  }

  /** An argument of circleOfFifthsDistance, told apart by its JavaScript `typeof`. */
  /** A `typeof` result other than "object" and "string", such as "number" or "undefined". */
  type OtherTypeName = t: string | t != "object" && t != "string" witness "number"

  datatype NoteArgument =
    | NoteObject(note: Note)              // typeof "object"
    | SpelledName(name: string)           // typeof "string"
    | OtherType(typeName: OtherTypeName)  // any other typeof, named in the error

  /** The outcome of circleOfFifthsDistance: a number of fifths, NaN, or the error it throws. */
  datatype DistanceResult =
    | Distance(fifths: int)
    | NotANumber
    | UnsupportedN1(typeName: string)
    | UnsupportedN2(typeName: string)

  /**
   * The position an argument stands for: `n[tpcMode] - 14` for a note
   * object, the table's value for a name, None for a name that is not a key.
   */
  function Position(arg: NoteArgument, mode: TpcMode): Option<int>
    requires !arg.OtherType?
  {
    match arg
    case NoteObject(note) => Some(Tpc(note, mode) - 14)
    case SpelledName(name) => TableLookup(name)
  }

  /** An argument of a supported type whose position is a number. */
  predicate HasPosition(arg: NoteArgument, mode: TpcMode)
  {
    !arg.OtherType? && Position(arg, mode).Some?
  }

  /**
   * circleOfFifthsDistance: the position of n1 minus the position of n2.
   * n1's type is checked before n2's, and a name missing from the table
   * makes the difference NaN instead of an error.
   */
  function CircleOfFifthsDistance(n1: NoteArgument, n2: NoteArgument, mode: TpcMode): (r: DistanceResult)
    ensures r.UnsupportedN1? <==> n1.OtherType?
    ensures r.UnsupportedN2? <==> !n1.OtherType? && n2.OtherType?
    ensures r.NotANumber? <==> !n1.OtherType? && !n2.OtherType? && !(HasPosition(n1, mode) && HasPosition(n2, mode))
  {
    if n1.OtherType? then UnsupportedN1(n1.typeName)
    else if n2.OtherType? then UnsupportedN2(n2.typeName)
    else
      match (Position(n1, mode), Position(n2, mode))
      case (Some(p1), Some(p2)) => Distance(p1 - p2)
      case _ => NotANumber
  }

  /** A note is at distance 0 from itself; a name missing from the table gives NaN even against itself. */
  lemma DistanceToItself(a: NoteArgument, mode: TpcMode)
    ensures HasPosition(a, mode) ==> CircleOfFifthsDistance(a, a, mode) == Distance(0)
    ensures a.SpelledName? && !HasPosition(a, mode) ==> CircleOfFifthsDistance(a, a, mode) == NotANumber
  {
  }

  /** Swapping the arguments negates the distance. */
  lemma DistanceAntisymmetric(a: NoteArgument, b: NoteArgument, mode: TpcMode)
    ensures HasPosition(a, mode) && HasPosition(b, mode) ==>
      CircleOfFifthsDistance(a, b, mode).Distance?
      && CircleOfFifthsDistance(b, a, mode) == Distance(-CircleOfFifthsDistance(a, b, mode).fifths)
  {
  }

  /** Distances add up along a path of three notes. */
  lemma DistanceAdditive(a: NoteArgument, b: NoteArgument, c: NoteArgument, mode: TpcMode)
    ensures HasPosition(a, mode) && HasPosition(b, mode) && HasPosition(c, mode) ==>
      CircleOfFifthsDistance(a, c, mode).fifths
      == CircleOfFifthsDistance(a, b, mode).fifths + CircleOfFifthsDistance(b, c, mode).fifths
  {
  }

  /** A note object is at distance 0 from a name exactly when its tpc is the name's value plus 14. */
  lemma NoteAgainstName(note: Note, name: string, mode: TpcMode)
    ensures CircleOfFifthsDistance(NoteObject(note), SpelledName(name), mode) == Distance(0)
      <==> TableLookup(name) == Some(Tpc(note, mode) - 14)
  {
  }

  /** Between two note objects the bias of 14 cancels: the distance is the difference of their tpcs. */
  lemma NoteDistance(a: Note, b: Note, mode: TpcMode)
    ensures CircleOfFifthsDistance(NoteObject(a), NoteObject(b), mode) == Distance(Tpc(a, mode) - Tpc(b, mode))
  {
  }

  /**
   * Between two spelled names the distance is the difference of their letter
   * indices plus 7 times the difference of their sharps.
   */
  lemma SpelledDistance(i: int, s: int, j: int, t: int, mode: TpcMode)
    requires -1 <= i <= 5 && -3 <= s <= 3 && -1 <= j <= 5 && -3 <= t <= 3
    ensures CircleOfFifthsDistance(SpelledName(Spelling(i, s)), SpelledName(Spelling(j, t)), mode)
      == Distance(i - j + 7 * (s - t))
  {
    SpelledNamesAreKeys(i, s);
    SpelledNamesAreKeys(j, t);
  }

  /** F# lies six fifths above C, and Bb two below. */
  lemma SharpFAndFlatBAgainstC(mode: TpcMode)
    ensures CircleOfFifthsDistance(SpelledName("F#"), SpelledName("C"), mode) == Distance(6)
    ensures CircleOfFifthsDistance(SpelledName("Bb"), SpelledName("C"), mode) == Distance(-2)
  {
    SpelledDistance(-1, 1, 0, 0, mode);
    SpelledDistance(5, -1, 0, 0, mode);
    assert Spelling(-1, 1) == "F#" && Spelling(0, 0) == "C" && Spelling(5, -1) == "Bb";
  }

  /** The bias of 14 puts tpc 14 at C. */
  lemma TpcFourteenIsC(note: Note, mode: TpcMode)
    ensures Tpc(note, mode) == 14 ==> CircleOfFifthsDistance(NoteObject(note), SpelledName("C"), mode) == Distance(0)
  {
    PositionsAreValues(0);
    assert NameAtPosition(0) == "C";
  }
}
