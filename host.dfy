/**
 * The pieces of the score host (MuseScore's plugin API) that the libraries
 * read: the fields of a note object that the functions below consult.
 */
module Host {

  /** Which of a note's two tonal-pitch-class fields a caller asks for. */
  datatype TpcMode = Tpc1 | Tpc2

  /**
   * A note as the host exposes it: its two tonal pitch classes (`tpc1`,
   * `tpc2`), its MIDI pitch and the numeric value of its accidental type.
   */
  datatype Note = Note(tpc1: int, tpc2: int, pitch: int, accidentalType: int)

  /** `note[tpcMode]`: the tonal pitch class selected by the mode. */
  function Tpc(note: Note, mode: TpcMode): int
  {
    match mode
    case Tpc1 => note.tpc1
    case Tpc2 => note.tpc2
  }
}
