/**
 * The note helpers of source/libs/NoteUtils.js: getNoteLetter, which names
 * the letter of a note from its tonal pitch class through JavaScript's `%`,
 * and getOctave, which derives the octave number from the MIDI pitch.
 */
module NoteLetters {
  import opened Host
  import Fifths

  /**
   * JavaScript's `a % 7`: the remainder of the division truncated toward
   * zero, which takes the sign of `a` (Dafny's `%` is never negative).
   */
  function JsRemainderBy7(a: int): (r: int)
    ensures -7 < r < 7
    ensures a >= 0 ==> r >= 0
    ensures a < 0 ==> r <= 0
    ensures (a - r) % 7 == 0
    ensures a % 7 == if r < 0 then r + 7 else r
  {
    if a >= 0 then a % 7 else -((-a) % 7)
  }

  /** The letters in fifths order from C: the letter of every tpc t with t % 7 == k (Euclidean) is entry k. */
  const FifthsOrder: string := "CGDAEBF"

  /**
   * getNoteLetter: the switch on `note[tpcMode] % 7`, whose cases pair each
   * negative remainder with a positive one.  The switch has no default; the
   * branch after its last case is unreachable, because a JavaScript
   * remainder by 7 lies in -6..6.
   */
  function GetNoteLetter(note: Note, mode: TpcMode): (letter: string)
    ensures |letter| == 1 && letter[0] in FifthsOrder
  {
    var r := JsRemainderBy7(Tpc(note, mode));
    if r == 0 then "C"
    else if r == 2 || r == -5 then "D"
    else if r == 4 || r == -3 then "E"
    else if r == 6 || r == -1 then "F"
    else if r == 1 || r == -6 then "G"
    else if r == 3 || r == -4 then "A"
    else if r == 5 || r == -2 then "B"
    else assert false; ""
  }

  /**
   * The switch agrees with reading the letter off the circle of fifths at
   * the Euclidean remainder: each negative remainder r gives the letter of
   * r + 7, and for t % 7 = 0..6 the letters run C, G, D, A, E, B, F.
   */
  lemma GetNoteLetterByFifths(note: Note, mode: TpcMode)
    ensures GetNoteLetter(note, mode) == [FifthsOrder[Tpc(note, mode) % 7]]
  {
    var r := JsRemainderBy7(Tpc(note, mode));
    var k := if r < 0 then r + 7 else r;
    assert Tpc(note, mode) % 7 == k;
  }

  /** Seven fifths up is the same letter, on both sides of zero. */
  lemma GetNoteLetterPeriodic(note: Note, mode: TpcMode)
    ensures GetNoteLetter(note.(tpc1 := note.tpc1 + 7, tpc2 := note.tpc2 + 7), mode) == GetNoteLetter(note, mode)
  {
    var up := note.(tpc1 := note.tpc1 + 7, tpc2 := note.tpc2 + 7);
    var k := Tpc(note, mode) % 7;
    assert Tpc(up, mode) % 7 == k by {
      assert Tpc(up, mode) == Tpc(note, mode) + 7;
    }
    GetNoteLetterByFifths(note, mode);
    GetNoteLetterByFifths(up, mode);
  }

  /** The circle-of-fifths letter at index -1 (F) to 5 (B) is read off FifthsOrder at the Euclidean remainder. */
  lemma LetterNameInFifthsOrder(index: int)
    requires -1 <= index <= 5
    ensures FifthsOrder[(index + 7) % 7] == Fifths.LetterName(index)
  {
  }

  /** The bias of 14 keeps the letter index of a circle position modulo 7. */
  lemma BiasKeepsLetter(v: int)
    ensures (v + 14) % 7 == ((v + 1) % 7 - 1 + 7) % 7
  {
  }

  /**
   * The two tables agree: a note whose tpc is a name's circle-of-fifths
   * value plus 14 has the name's first character as its letter.
   */
  lemma LetterOfSpelledName(name: string, note: Note, mode: TpcMode)
    requires Fifths.TableLookup(name).Some?
    requires Tpc(note, mode) == Fifths.TableLookup(name).value + 14
    ensures |name| > 0 && GetNoteLetter(note, mode) == [name[0]]
  {
    var v := Fifths.TableLookup(name).value;
    Fifths.KeysAreNamesAtTheirPositions(name);
    var index := (v + 1) % 7 - 1;
    assert name[0] == Fifths.LetterName(index);
    GetNoteLetterByFifths(note, mode);
    BiasKeepsLetter(v);
    LetterNameInFifthsOrder(index);
  }

  /** getOctave: `Math.floor(pitch / 12) - 1`; the octave of MIDI pitch 60 (middle C) is 4. */
  function GetOctave(note: Note): (octave: int)
    ensures 12 * (octave + 1) <= note.pitch < 12 * (octave + 2)
  {
    note.pitch / 12 - 1
  }

  /** Middle C starts octave 4 and the B below it ends octave 3. */
  lemma MiddleCOctave(note: Note)
    ensures note.pitch == 60 ==> GetOctave(note) == 4
    ensures note.pitch == 59 ==> GetOctave(note) == 3
  {
  }

  /** Twelve semitones up is one octave up. */
  lemma GetOctaveShift(note: Note)
    ensures GetOctave(note.(pitch := note.pitch + 12)) == GetOctave(note) + 1
  {
  }

  /** A higher pitch is never in a lower octave. */
  lemma GetOctaveMonotone(a: Note, b: Note)
    ensures a.pitch <= b.pitch ==> GetOctave(a) <= GetOctave(b)
  {
  }
}
