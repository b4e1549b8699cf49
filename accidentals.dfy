/**
 * The accidental catalogue of source/libs/AccidentalUtils.js: the closed table
 * ACCIDENTAL_DATA, which tells for every accidental the plugin knows whether
 * the host spells it through the note's tonal pitch class alone ("TPC") and
 * which offset in cents the host's renderer already applies for it
 * ("DEFAULT_OFFSET"), and getAccidentalName, which turns the host's numeric
 * accidental type into one of those names.
 *
 * The 136 names are grouped into families of notation, each its own
 * enumeration, so that the name of an accidental is a family tag together
 * with the sign's own name (`Sagittal(SAGITTAL_SHARP5CD)`).  The source's
 * table and switch are flat and list the names in the same order; the
 * families below follow that order and split it into consecutive runs.
 */
module Accidentals {
  import opened Options
  import opened Host

  /** The conventional signs, from NONE to SHARP_SHARP. */
  datatype StandardSign =
    | NONE
    | FLAT
    | NATURAL
    | SHARP
    | SHARP2
    | FLAT2
    | SHARP3
    | FLAT3
    | NATURAL_FLAT
    | NATURAL_SHARP
    | SHARP_SHARP

  /** Conventional signs with a quarter-tone arrow, and the bare arrows. */
  datatype QuarterArrowSign =
    | FLAT_ARROW_UP
    | FLAT_ARROW_DOWN
    | NATURAL_ARROW_UP
    | NATURAL_ARROW_DOWN
    | SHARP_ARROW_UP
    | SHARP_ARROW_DOWN
    | SHARP2_ARROW_UP
    | SHARP2_ARROW_DOWN
    | FLAT2_ARROW_UP
    | FLAT2_ARROW_DOWN
    | ARROW_DOWN
    | ARROW_UP

  /** Mirrored flats and slashed signs. */
  datatype SlashedSign =
    | MIRRORED_FLAT
    | MIRRORED_FLAT2
    | SHARP_SLASH
    | SHARP_SLASH4
    | FLAT_SLASH2
    | FLAT_SLASH
    | SHARP_SLASH3
    | SHARP_SLASH2

  /** Signs with one, two or three comma arrows. */
  datatype CommaArrowSign =
    | DOUBLE_FLAT_ONE_ARROW_DOWN
    | FLAT_ONE_ARROW_DOWN
    | NATURAL_ONE_ARROW_DOWN
    | SHARP_ONE_ARROW_DOWN
    | DOUBLE_SHARP_ONE_ARROW_DOWN
    | DOUBLE_FLAT_ONE_ARROW_UP
    | FLAT_ONE_ARROW_UP
    | NATURAL_ONE_ARROW_UP
    | SHARP_ONE_ARROW_UP
    | DOUBLE_SHARP_ONE_ARROW_UP
    | DOUBLE_FLAT_TWO_ARROWS_DOWN
    | FLAT_TWO_ARROWS_DOWN
    | NATURAL_TWO_ARROWS_DOWN
    | SHARP_TWO_ARROWS_DOWN
    | DOUBLE_SHARP_TWO_ARROWS_DOWN
    | DOUBLE_FLAT_TWO_ARROWS_UP
    | FLAT_TWO_ARROWS_UP
    | NATURAL_TWO_ARROWS_UP
    | SHARP_TWO_ARROWS_UP
    | DOUBLE_SHARP_TWO_ARROWS_UP
    | DOUBLE_FLAT_THREE_ARROWS_DOWN
    | FLAT_THREE_ARROWS_DOWN
    | NATURAL_THREE_ARROWS_DOWN
    | SHARP_THREE_ARROWS_DOWN
    | DOUBLE_SHARP_THREE_ARROWS_DOWN
    | DOUBLE_FLAT_THREE_ARROWS_UP
    | FLAT_THREE_ARROWS_UP
    | NATURAL_THREE_ARROWS_UP
    | SHARP_THREE_ARROWS_UP
    | DOUBLE_SHARP_THREE_ARROWS_UP

  /** Septimal, undecimal and tridecimal comma signs. */
  datatype CommaSign =
    | LOWER_ONE_SEPTIMAL_COMMA
    | RAISE_ONE_SEPTIMAL_COMMA
    | LOWER_TWO_SEPTIMAL_COMMAS
    | RAISE_TWO_SEPTIMAL_COMMAS
    | LOWER_ONE_UNDECIMAL_QUARTERTONE
    | RAISE_ONE_UNDECIMAL_QUARTERTONE
    | LOWER_ONE_TRIDECIMAL_QUARTERTONE
    | RAISE_ONE_TRIDECIMAL_QUARTERTONE

  /** The EQUAL_TEMPERED signs. */
  datatype EqualTemperedSign =
    | DOUBLE_FLAT_EQUAL_TEMPERED
    | FLAT_EQUAL_TEMPERED
    | NATURAL_EQUAL_TEMPERED
    | SHARP_EQUAL_TEMPERED
    | DOUBLE_SHARP_EQUAL_TEMPERED
    | QUARTER_FLAT_EQUAL_TEMPERED
    | QUARTER_SHARP_EQUAL_TEMPERED

  /** The FLAT_n and SHARP_n signs of the 17, 19, 23, 31 and 53 equal divisions. */
  datatype EdoSign =
    | FLAT_17
    | SHARP_17
    | FLAT_19
    | SHARP_19
    | FLAT_23
    | SHARP_23
    | FLAT_31
    | SHARP_31
    | FLAT_53
    | SHARP_53

  /** SORI and KORON. */
  datatype PersianSign =
    | SORI
    | KORON

  /** The k_TWELFTH_FLAT and k_TWELFTH_SHARP signs. */
  datatype TwelfthSign =
    | TEN_TWELFTH_FLAT
    | TEN_TWELFTH_SHARP
    | ELEVEN_TWELFTH_FLAT
    | ELEVEN_TWELFTH_SHARP
    | ONE_TWELFTH_FLAT
    | ONE_TWELFTH_SHARP
    | TWO_TWELFTH_FLAT
    | TWO_TWELFTH_SHARP
    | THREE_TWELFTH_FLAT
    | THREE_TWELFTH_SHARP
    | FOUR_TWELFTH_FLAT
    | FOUR_TWELFTH_SHARP
    | FIVE_TWELFTH_FLAT
    | FIVE_TWELFTH_SHARP
    | SIX_TWELFTH_FLAT
    | SIX_TWELFTH_SHARP
    | SEVEN_TWELFTH_FLAT
    | SEVEN_TWELFTH_SHARP
    | EIGHT_TWELFTH_FLAT
    | EIGHT_TWELFTH_SHARP
    | NINE_TWELFTH_FLAT
    | NINE_TWELFTH_SHARP

  /** The SAGITTAL signs. */
  datatype SagittalSign =
    | SAGITTAL_5V7KD
    | SAGITTAL_5V7KU
    | SAGITTAL_5CD
    | SAGITTAL_5CU
    | SAGITTAL_7CD
    | SAGITTAL_7CU
    | SAGITTAL_25SDD
    | SAGITTAL_25SDU
    | SAGITTAL_35MDD
    | SAGITTAL_35MDU
    | SAGITTAL_11MDD
    | SAGITTAL_11MDU
    | SAGITTAL_11LDD
    | SAGITTAL_11LDU
    | SAGITTAL_35LDD
    | SAGITTAL_35LDU
    | SAGITTAL_FLAT25SU
    | SAGITTAL_SHARP25SD
    | SAGITTAL_FLAT7CU
    | SAGITTAL_SHARP7CD
    | SAGITTAL_SHARP5CD
    | SAGITTAL_SHARP5V7KD
    | SAGITTAL_FLAT5CU
    | SAGITTAL_FLAT5V7KU
    | SAGITTAL_FLAT
    | SAGITTAL_SHARP

  /** A key of ACCIDENTAL_DATA, which is also a name of the host's Accidental enumeration. */
  datatype AccidentalName =
    | Standard(standardSign: StandardSign)
    | QuarterArrow(quarterArrowSign: QuarterArrowSign)
    | Slashed(slashedSign: SlashedSign)
    | CommaArrow(commaArrowSign: CommaArrowSign)
    | Comma(commaSign: CommaSign)
    | EqualTempered(equalTemperedSign: EqualTemperedSign)
    | Edo(edoSign: EdoSign)
    | Persian(persianSign: PersianSign)
    | Twelfth(twelfthSign: TwelfthSign)
    | Sagittal(sagittalSign: SagittalSign)

  /** One entry of ACCIDENTAL_DATA: the "TPC" flag and the "DEFAULT_OFFSET" in cents. */
  datatype AccidentalInfo = AccidentalInfo(tpc: bool, defaultOffset: real)

  /** The entries of ACCIDENTAL_DATA for the Standard family, in source order. */
  function StandardData(s: StandardSign): AccidentalInfo
  {
    match s
    case NONE => AccidentalInfo(true, 0.0)
    case FLAT => AccidentalInfo(true, 0.0)
    case NATURAL => AccidentalInfo(true, 0.0)
    case SHARP => AccidentalInfo(true, 0.0)
    case SHARP2 => AccidentalInfo(true, 0.0)
    case FLAT2 => AccidentalInfo(true, 0.0)
    case SHARP3 => AccidentalInfo(true, 0.0)
    case FLAT3 => AccidentalInfo(true, 0.0)
    case NATURAL_FLAT => AccidentalInfo(true, 0.0)
    case NATURAL_SHARP => AccidentalInfo(true, 0.0)
    case SHARP_SHARP => AccidentalInfo(false, 0.0)
  }

  /** The entries of ACCIDENTAL_DATA for the QuarterArrow family, in source order. */
  function QuarterArrowData(s: QuarterArrowSign): AccidentalInfo
  {
    match s
    case FLAT_ARROW_UP => AccidentalInfo(false, -50.0)
    case FLAT_ARROW_DOWN => AccidentalInfo(false, -150.0)
    case NATURAL_ARROW_UP => AccidentalInfo(false, 50.0)
    case NATURAL_ARROW_DOWN => AccidentalInfo(false, -50.0)
    case SHARP_ARROW_UP => AccidentalInfo(false, 150.0)
    case SHARP_ARROW_DOWN => AccidentalInfo(false, 50.0)
    case SHARP2_ARROW_UP => AccidentalInfo(false, 250.0)
    case SHARP2_ARROW_DOWN => AccidentalInfo(false, 150.0)
    case FLAT2_ARROW_UP => AccidentalInfo(false, -150.0)
    case FLAT2_ARROW_DOWN => AccidentalInfo(false, -250.0)
    case ARROW_DOWN => AccidentalInfo(false, -50.0)
    case ARROW_UP => AccidentalInfo(false, 50.0)
  }

  /** The entries of ACCIDENTAL_DATA for the Slashed family, in source order. */
  function SlashedData(s: SlashedSign): AccidentalInfo
  {
    match s
    case MIRRORED_FLAT => AccidentalInfo(false, -50.0)
    case MIRRORED_FLAT2 => AccidentalInfo(false, -150.0)
    case SHARP_SLASH => AccidentalInfo(false, 50.0)
    case SHARP_SLASH4 => AccidentalInfo(false, 150.0)
    case FLAT_SLASH2 => AccidentalInfo(false, 0.0)
    case FLAT_SLASH => AccidentalInfo(false, 0.0)
    case SHARP_SLASH3 => AccidentalInfo(false, 0.0)
    case SHARP_SLASH2 => AccidentalInfo(false, 0.0)
  }

  /** The entries of ACCIDENTAL_DATA for the CommaArrow family, in source order. */
  function CommaArrowData(s: CommaArrowSign): AccidentalInfo
  {
    match s
    case DOUBLE_FLAT_ONE_ARROW_DOWN => AccidentalInfo(false, 0.0)
    case FLAT_ONE_ARROW_DOWN => AccidentalInfo(false, 0.0)
    case NATURAL_ONE_ARROW_DOWN => AccidentalInfo(false, 0.0)
    case SHARP_ONE_ARROW_DOWN => AccidentalInfo(false, 0.0)
    case DOUBLE_SHARP_ONE_ARROW_DOWN => AccidentalInfo(false, 0.0)
    case DOUBLE_FLAT_ONE_ARROW_UP => AccidentalInfo(false, 0.0)
    case FLAT_ONE_ARROW_UP => AccidentalInfo(false, 0.0)
    case NATURAL_ONE_ARROW_UP => AccidentalInfo(false, 0.0)
    case SHARP_ONE_ARROW_UP => AccidentalInfo(false, 0.0)
    case DOUBLE_SHARP_ONE_ARROW_UP => AccidentalInfo(false, 0.0)
    case DOUBLE_FLAT_TWO_ARROWS_DOWN => AccidentalInfo(false, 0.0)
    case FLAT_TWO_ARROWS_DOWN => AccidentalInfo(false, 0.0)
    case NATURAL_TWO_ARROWS_DOWN => AccidentalInfo(false, 0.0)
    case SHARP_TWO_ARROWS_DOWN => AccidentalInfo(false, 0.0)
    case DOUBLE_SHARP_TWO_ARROWS_DOWN => AccidentalInfo(false, 0.0)
    case DOUBLE_FLAT_TWO_ARROWS_UP => AccidentalInfo(false, 0.0)
    case FLAT_TWO_ARROWS_UP => AccidentalInfo(false, 0.0)
    case NATURAL_TWO_ARROWS_UP => AccidentalInfo(false, 0.0)
    case SHARP_TWO_ARROWS_UP => AccidentalInfo(false, 0.0)
    case DOUBLE_SHARP_TWO_ARROWS_UP => AccidentalInfo(false, 0.0)
    case DOUBLE_FLAT_THREE_ARROWS_DOWN => AccidentalInfo(false, 0.0)
    case FLAT_THREE_ARROWS_DOWN => AccidentalInfo(false, 0.0)
    case NATURAL_THREE_ARROWS_DOWN => AccidentalInfo(false, 0.0)
    case SHARP_THREE_ARROWS_DOWN => AccidentalInfo(false, 0.0)
    case DOUBLE_SHARP_THREE_ARROWS_DOWN => AccidentalInfo(false, 0.0)
    case DOUBLE_FLAT_THREE_ARROWS_UP => AccidentalInfo(false, 0.0)
    case FLAT_THREE_ARROWS_UP => AccidentalInfo(false, 0.0)
    case NATURAL_THREE_ARROWS_UP => AccidentalInfo(false, 0.0)
    case SHARP_THREE_ARROWS_UP => AccidentalInfo(false, 0.0)
    case DOUBLE_SHARP_THREE_ARROWS_UP => AccidentalInfo(false, 0.0)
  }

  /** The entries of ACCIDENTAL_DATA for the Comma family, in source order. */
  function CommaData(s: CommaSign): AccidentalInfo
  {
    match s
    case LOWER_ONE_SEPTIMAL_COMMA => AccidentalInfo(false, 0.0)
    case RAISE_ONE_SEPTIMAL_COMMA => AccidentalInfo(false, 0.0)
    case LOWER_TWO_SEPTIMAL_COMMAS => AccidentalInfo(false, 0.0)
    case RAISE_TWO_SEPTIMAL_COMMAS => AccidentalInfo(false, 0.0)
    case LOWER_ONE_UNDECIMAL_QUARTERTONE => AccidentalInfo(false, 0.0)
    case RAISE_ONE_UNDECIMAL_QUARTERTONE => AccidentalInfo(false, 0.0)
    case LOWER_ONE_TRIDECIMAL_QUARTERTONE => AccidentalInfo(false, 0.0)
    case RAISE_ONE_TRIDECIMAL_QUARTERTONE => AccidentalInfo(false, 0.0)
  }

  /** The entries of ACCIDENTAL_DATA for the EqualTempered family, in source order. */
  function EqualTemperedData(s: EqualTemperedSign): AccidentalInfo
  {
    match s
    case DOUBLE_FLAT_EQUAL_TEMPERED => AccidentalInfo(false, 0.0)
    case FLAT_EQUAL_TEMPERED => AccidentalInfo(false, 0.0)
    case NATURAL_EQUAL_TEMPERED => AccidentalInfo(false, 0.0)
    case SHARP_EQUAL_TEMPERED => AccidentalInfo(false, 0.0)
    case DOUBLE_SHARP_EQUAL_TEMPERED => AccidentalInfo(false, 0.0)
    case QUARTER_FLAT_EQUAL_TEMPERED => AccidentalInfo(false, 0.0)
    case QUARTER_SHARP_EQUAL_TEMPERED => AccidentalInfo(false, 0.0)
  }

  /** The entries of ACCIDENTAL_DATA for the Edo family, in source order. */
  function EdoData(s: EdoSign): AccidentalInfo
  {
    match s
    case FLAT_17 => AccidentalInfo(false, -6.8)
    case SHARP_17 => AccidentalInfo(false, 6.8)
    case FLAT_19 => AccidentalInfo(false, -3.4)
    case SHARP_19 => AccidentalInfo(false, 3.4)
    case FLAT_23 => AccidentalInfo(false, -16.5)
    case SHARP_23 => AccidentalInfo(false, 16.5)
    case FLAT_31 => AccidentalInfo(false, -1.7)
    case SHARP_31 => AccidentalInfo(false, 1.7)
    case FLAT_53 => AccidentalInfo(false, -10.9)
    case SHARP_53 => AccidentalInfo(false, 10.9)
  }

  /** The entries of ACCIDENTAL_DATA for the Persian family, in source order. */
  function PersianData(s: PersianSign): AccidentalInfo
  {
    match s
    case SORI => AccidentalInfo(false, 33.0)
    case KORON => AccidentalInfo(false, -67.0)
  }

  /** The entries of ACCIDENTAL_DATA for the Twelfth family, in source order. */
  function TwelfthData(s: TwelfthSign): AccidentalInfo
  {
    match s
    case TEN_TWELFTH_FLAT => AccidentalInfo(false, -167.0)
    case TEN_TWELFTH_SHARP => AccidentalInfo(false, 167.0)
    case ELEVEN_TWELFTH_FLAT => AccidentalInfo(false, -183.0)
    case ELEVEN_TWELFTH_SHARP => AccidentalInfo(false, 183.0)
    case ONE_TWELFTH_FLAT => AccidentalInfo(false, -17.0)
    case ONE_TWELFTH_SHARP => AccidentalInfo(false, 17.0)
    case TWO_TWELFTH_FLAT => AccidentalInfo(false, -33.0)
    case TWO_TWELFTH_SHARP => AccidentalInfo(false, 33.0)
    case THREE_TWELFTH_FLAT => AccidentalInfo(false, -50.0)
    case THREE_TWELFTH_SHARP => AccidentalInfo(false, 50.0)
    case FOUR_TWELFTH_FLAT => AccidentalInfo(false, -67.0)
    case FOUR_TWELFTH_SHARP => AccidentalInfo(false, 67.0)
    case FIVE_TWELFTH_FLAT => AccidentalInfo(false, -83.0)
    case FIVE_TWELFTH_SHARP => AccidentalInfo(false, 83.0)
    case SIX_TWELFTH_FLAT => AccidentalInfo(true, 0.0)
    case SIX_TWELFTH_SHARP => AccidentalInfo(true, 0.0)
    case SEVEN_TWELFTH_FLAT => AccidentalInfo(false, -116.0)
    case SEVEN_TWELFTH_SHARP => AccidentalInfo(false, 116.0)
    case EIGHT_TWELFTH_FLAT => AccidentalInfo(false, -133.0)
    case EIGHT_TWELFTH_SHARP => AccidentalInfo(false, 133.0)
    case NINE_TWELFTH_FLAT => AccidentalInfo(false, -150.0)
    case NINE_TWELFTH_SHARP => AccidentalInfo(false, 150.0)
  }

  /** The entries of ACCIDENTAL_DATA for the Sagittal family, in source order. */
  function SagittalData(s: SagittalSign): AccidentalInfo
  {
    match s
    case SAGITTAL_5V7KD => AccidentalInfo(false, -5.8)
    case SAGITTAL_5V7KU => AccidentalInfo(false, 5.8)
    case SAGITTAL_5CD => AccidentalInfo(false, -21.5)
    case SAGITTAL_5CU => AccidentalInfo(false, 21.5)
    case SAGITTAL_7CD => AccidentalInfo(false, -27.3)
    case SAGITTAL_7CU => AccidentalInfo(false, 27.3)
    case SAGITTAL_25SDD => AccidentalInfo(false, -43.0)
    case SAGITTAL_25SDU => AccidentalInfo(false, 43.0)
    case SAGITTAL_35MDD => AccidentalInfo(false, -48.8)
    case SAGITTAL_35MDU => AccidentalInfo(false, 48.8)
    case SAGITTAL_11MDD => AccidentalInfo(false, -53.3)
    case SAGITTAL_11MDU => AccidentalInfo(false, 53.3)
    case SAGITTAL_11LDD => AccidentalInfo(false, -60.4)
    case SAGITTAL_11LDU => AccidentalInfo(false, 60.4)
    case SAGITTAL_35LDD => AccidentalInfo(false, -64.9)
    case SAGITTAL_35LDU => AccidentalInfo(false, 64.9)
    case SAGITTAL_FLAT25SU => AccidentalInfo(false, -70.7)
    case SAGITTAL_SHARP25SD => AccidentalInfo(false, 70.7)
    case SAGITTAL_FLAT7CU => AccidentalInfo(false, -86.4)
    case SAGITTAL_SHARP7CD => AccidentalInfo(false, 86.4)
    case SAGITTAL_SHARP5CD => AccidentalInfo(false, -92.2)
    case SAGITTAL_SHARP5V7KD => AccidentalInfo(false, 92.2)
    case SAGITTAL_FLAT5CU => AccidentalInfo(false, -107.9)
    case SAGITTAL_FLAT5V7KU => AccidentalInfo(false, 107.9)
    case SAGITTAL_FLAT => AccidentalInfo(false, -113.7)
    case SAGITTAL_SHARP => AccidentalInfo(false, 113.7)
  }

  /** `ACCIDENTAL_DATA[n]`: the table is total on the names, so every name has an entry. */
  function AccidentalData(n: AccidentalName): AccidentalInfo
  {
    match n
    case Standard(s) => StandardData(s)
    case QuarterArrow(s) => QuarterArrowData(s)
    case Slashed(s) => SlashedData(s)
    case CommaArrow(s) => CommaArrowData(s)
    case Comma(s) => CommaData(s)
    case EqualTempered(s) => EqualTemperedData(s)
    case Edo(s) => EdoData(s)
    case Persian(s) => PersianData(s)
    case Twelfth(s) => TwelfthData(s)
    case Sagittal(s) => SagittalData(s)
  }

  /**
   * The names whose entry has "TPC": true: the ten conventional signs up to
   * NATURAL_SHARP and the two six-twelfths signs.
   */
  predicate IsStandardNotated(n: AccidentalName)
  {
    (n.Standard? && n.standardSign != SHARP_SHARP)
    || n == Twelfth(SIX_TWELFTH_FLAT) || n == Twelfth(SIX_TWELFTH_SHARP)
  }

  /** An entry the host spells by tonal pitch class alone needs no offset. */
  lemma TpcMeansZeroOffset(n: AccidentalName)
    ensures AccidentalData(n).tpc ==> AccidentalData(n).defaultOffset == 0.0
  {
  }

  /** The "TPC" flag is set on exactly the twelve standard-notated names. */
  lemma StandardNotatedNames(n: AccidentalName)
    ensures AccidentalData(n).tpc <==> IsStandardNotated(n)
  {
  }

  /**
   * The converse of TpcMeansZeroOffset fails: SHARP_SHARP, the four slashed
   * signs without an offset, and every sign of the CommaArrow, Comma and
   * EqualTempered families have offset 0 and yet are not spelled by tonal
   * pitch class.
   */
  lemma ZeroOffsetWithoutTpc()
    ensures AccidentalData(Standard(SHARP_SHARP)) == AccidentalInfo(false, 0.0)
    ensures AccidentalData(Slashed(FLAT_SLASH2)) == AccidentalInfo(false, 0.0)
    ensures AccidentalData(Slashed(FLAT_SLASH)) == AccidentalInfo(false, 0.0)
    ensures AccidentalData(Slashed(SHARP_SLASH3)) == AccidentalInfo(false, 0.0)
    ensures AccidentalData(Slashed(SHARP_SLASH2)) == AccidentalInfo(false, 0.0)
    ensures forall s :: AccidentalData(CommaArrow(s)) == AccidentalInfo(false, 0.0)
    ensures forall s :: AccidentalData(Comma(s)) == AccidentalInfo(false, 0.0)
    ensures forall s :: AccidentalData(EqualTempered(s)) == AccidentalInfo(false, 0.0)
  {
  }

  /** The SHARP_n that mirrors FLAT_n, for each equal division n. */
  function EdoSharpPartner(s: EdoSign): Option<EdoSign>
  {
    match s
    case FLAT_17 => Some(SHARP_17)
    case FLAT_19 => Some(SHARP_19)
    case FLAT_23 => Some(SHARP_23)
    case FLAT_31 => Some(SHARP_31)
    case FLAT_53 => Some(SHARP_53)
    case _ => None
  }

  /** The k_TWELFTH_SHARP that mirrors k_TWELFTH_FLAT. */
  function TwelfthSharpPartner(s: TwelfthSign): Option<TwelfthSign>
  {
    match s
    case ONE_TWELFTH_FLAT => Some(ONE_TWELFTH_SHARP)
    case TWO_TWELFTH_FLAT => Some(TWO_TWELFTH_SHARP)
    case THREE_TWELFTH_FLAT => Some(THREE_TWELFTH_SHARP)
    case FOUR_TWELFTH_FLAT => Some(FOUR_TWELFTH_SHARP)
    case FIVE_TWELFTH_FLAT => Some(FIVE_TWELFTH_SHARP)
    case SIX_TWELFTH_FLAT => Some(SIX_TWELFTH_SHARP)
    case SEVEN_TWELFTH_FLAT => Some(SEVEN_TWELFTH_SHARP)
    case EIGHT_TWELFTH_FLAT => Some(EIGHT_TWELFTH_SHARP)
    case NINE_TWELFTH_FLAT => Some(NINE_TWELFTH_SHARP)
    case TEN_TWELFTH_FLAT => Some(TEN_TWELFTH_SHARP)
    case ELEVEN_TWELFTH_FLAT => Some(ELEVEN_TWELFTH_SHARP)
    case _ => None
  }

  /** The sharp that mirrors a flat, among all the names. */
  function SharpPartner(n: AccidentalName): Option<AccidentalName>
  {
    match n
    case Edo(s) => if EdoSharpPartner(s).Some? then Some(Edo(EdoSharpPartner(s).value)) else None
    case Twelfth(s) => if TwelfthSharpPartner(s).Some? then Some(Twelfth(TwelfthSharpPartner(s).value)) else None
    case _ => None
  }

  /** A flat and the sharp that mirrors it carry opposite offsets and the same "TPC" flag. */
  lemma MirroredOffsetsAreNegated(n: AccidentalName)
    ensures SharpPartner(n).Some? ==>
      AccidentalData(SharpPartner(n).value).defaultOffset == -AccidentalData(n).defaultOffset
      && AccidentalData(SharpPartner(n).value).tpc == AccidentalData(n).tpc
  {
  }

  /**
   * The sagittal signs do not mirror by name: SAGITTAL_SHARP5CD lowers and
   * SAGITTAL_FLAT5V7KU raises.
   */
  lemma SagittalSignsDoNotFollowNames()
    ensures AccidentalData(Sagittal(SAGITTAL_SHARP5CD)).defaultOffset == -92.2
    ensures AccidentalData(Sagittal(SAGITTAL_SHARP5V7KD)).defaultOffset == 92.2
    ensures AccidentalData(Sagittal(SAGITTAL_FLAT5CU)).defaultOffset == -107.9
    ensures AccidentalData(Sagittal(SAGITTAL_FLAT5V7KU)).defaultOffset == 107.9
  {
  }

  /**
   * The cases of getAccidentalName's switch for the Standard family, tried in
   * source order: the first sign whose host code is `code`, if any.
   */
  function MatchStandard(code: int, codeOf: AccidentalName -> int): (r: Option<StandardSign>)
    ensures r.Some? ==> codeOf(Standard(r.value)) == code
  {
    if code == codeOf(Standard(NONE)) then Some(NONE)
    else if code == codeOf(Standard(FLAT)) then Some(FLAT)
    else if code == codeOf(Standard(NATURAL)) then Some(NATURAL)
    else if code == codeOf(Standard(SHARP)) then Some(SHARP)
    else if code == codeOf(Standard(SHARP2)) then Some(SHARP2)
    else if code == codeOf(Standard(FLAT2)) then Some(FLAT2)
    else if code == codeOf(Standard(SHARP3)) then Some(SHARP3)
    else if code == codeOf(Standard(FLAT3)) then Some(FLAT3)
    else if code == codeOf(Standard(NATURAL_FLAT)) then Some(NATURAL_FLAT)
    else if code == codeOf(Standard(NATURAL_SHARP)) then Some(NATURAL_SHARP)
    else if code == codeOf(Standard(SHARP_SHARP)) then Some(SHARP_SHARP)
    else None
  }

  /**
   * The cases of getAccidentalName's switch for the QuarterArrow family, tried in
   * source order: the first sign whose host code is `code`, if any.
   */
  function MatchQuarterArrow(code: int, codeOf: AccidentalName -> int): (r: Option<QuarterArrowSign>)
    ensures r.Some? ==> codeOf(QuarterArrow(r.value)) == code
  {
    if code == codeOf(QuarterArrow(FLAT_ARROW_UP)) then Some(FLAT_ARROW_UP)
    else if code == codeOf(QuarterArrow(FLAT_ARROW_DOWN)) then Some(FLAT_ARROW_DOWN)
    else if code == codeOf(QuarterArrow(NATURAL_ARROW_UP)) then Some(NATURAL_ARROW_UP)
    else if code == codeOf(QuarterArrow(NATURAL_ARROW_DOWN)) then Some(NATURAL_ARROW_DOWN)
    else if code == codeOf(QuarterArrow(SHARP_ARROW_UP)) then Some(SHARP_ARROW_UP)
    else if code == codeOf(QuarterArrow(SHARP_ARROW_DOWN)) then Some(SHARP_ARROW_DOWN)
    else if code == codeOf(QuarterArrow(SHARP2_ARROW_UP)) then Some(SHARP2_ARROW_UP)
    else if code == codeOf(QuarterArrow(SHARP2_ARROW_DOWN)) then Some(SHARP2_ARROW_DOWN)
    else if code == codeOf(QuarterArrow(FLAT2_ARROW_UP)) then Some(FLAT2_ARROW_UP)
    else if code == codeOf(QuarterArrow(FLAT2_ARROW_DOWN)) then Some(FLAT2_ARROW_DOWN)
    else if code == codeOf(QuarterArrow(ARROW_DOWN)) then Some(ARROW_DOWN)
    else if code == codeOf(QuarterArrow(ARROW_UP)) then Some(ARROW_UP)
    else None
  }

  /**
   * The cases of getAccidentalName's switch for the Slashed family, tried in
   * source order: the first sign whose host code is `code`, if any.
   */
  function MatchSlashed(code: int, codeOf: AccidentalName -> int): (r: Option<SlashedSign>)
    ensures r.Some? ==> codeOf(Slashed(r.value)) == code
  {
    if code == codeOf(Slashed(MIRRORED_FLAT)) then Some(MIRRORED_FLAT)
    else if code == codeOf(Slashed(MIRRORED_FLAT2)) then Some(MIRRORED_FLAT2)
    else if code == codeOf(Slashed(SHARP_SLASH)) then Some(SHARP_SLASH)
    else if code == codeOf(Slashed(SHARP_SLASH4)) then Some(SHARP_SLASH4)
    else if code == codeOf(Slashed(FLAT_SLASH2)) then Some(FLAT_SLASH2)
    else if code == codeOf(Slashed(FLAT_SLASH)) then Some(FLAT_SLASH)
    else if code == codeOf(Slashed(SHARP_SLASH3)) then Some(SHARP_SLASH3)
    else if code == codeOf(Slashed(SHARP_SLASH2)) then Some(SHARP_SLASH2)
    else None
  }

  /**
   * The cases of getAccidentalName's switch for the CommaArrow family, tried in
   * source order: the first sign whose host code is `code`, if any.
   */
  function MatchCommaArrow(code: int, codeOf: AccidentalName -> int): (r: Option<CommaArrowSign>)
    ensures r.Some? ==> codeOf(CommaArrow(r.value)) == code
  {
    if code == codeOf(CommaArrow(DOUBLE_FLAT_ONE_ARROW_DOWN)) then Some(DOUBLE_FLAT_ONE_ARROW_DOWN)
    else if code == codeOf(CommaArrow(FLAT_ONE_ARROW_DOWN)) then Some(FLAT_ONE_ARROW_DOWN)
    else if code == codeOf(CommaArrow(NATURAL_ONE_ARROW_DOWN)) then Some(NATURAL_ONE_ARROW_DOWN)
    else if code == codeOf(CommaArrow(SHARP_ONE_ARROW_DOWN)) then Some(SHARP_ONE_ARROW_DOWN)
    else if code == codeOf(CommaArrow(DOUBLE_SHARP_ONE_ARROW_DOWN)) then Some(DOUBLE_SHARP_ONE_ARROW_DOWN)
    else if code == codeOf(CommaArrow(DOUBLE_FLAT_ONE_ARROW_UP)) then Some(DOUBLE_FLAT_ONE_ARROW_UP)
    else if code == codeOf(CommaArrow(FLAT_ONE_ARROW_UP)) then Some(FLAT_ONE_ARROW_UP)
    else if code == codeOf(CommaArrow(NATURAL_ONE_ARROW_UP)) then Some(NATURAL_ONE_ARROW_UP)
    else if code == codeOf(CommaArrow(SHARP_ONE_ARROW_UP)) then Some(SHARP_ONE_ARROW_UP)
    else if code == codeOf(CommaArrow(DOUBLE_SHARP_ONE_ARROW_UP)) then Some(DOUBLE_SHARP_ONE_ARROW_UP)
    else if code == codeOf(CommaArrow(DOUBLE_FLAT_TWO_ARROWS_DOWN)) then Some(DOUBLE_FLAT_TWO_ARROWS_DOWN)
    else if code == codeOf(CommaArrow(FLAT_TWO_ARROWS_DOWN)) then Some(FLAT_TWO_ARROWS_DOWN)
    else if code == codeOf(CommaArrow(NATURAL_TWO_ARROWS_DOWN)) then Some(NATURAL_TWO_ARROWS_DOWN)
    else if code == codeOf(CommaArrow(SHARP_TWO_ARROWS_DOWN)) then Some(SHARP_TWO_ARROWS_DOWN)
    else if code == codeOf(CommaArrow(DOUBLE_SHARP_TWO_ARROWS_DOWN)) then Some(DOUBLE_SHARP_TWO_ARROWS_DOWN)
    else if code == codeOf(CommaArrow(DOUBLE_FLAT_TWO_ARROWS_UP)) then Some(DOUBLE_FLAT_TWO_ARROWS_UP)
    else if code == codeOf(CommaArrow(FLAT_TWO_ARROWS_UP)) then Some(FLAT_TWO_ARROWS_UP)
    else if code == codeOf(CommaArrow(NATURAL_TWO_ARROWS_UP)) then Some(NATURAL_TWO_ARROWS_UP)
    else if code == codeOf(CommaArrow(SHARP_TWO_ARROWS_UP)) then Some(SHARP_TWO_ARROWS_UP)
    else if code == codeOf(CommaArrow(DOUBLE_SHARP_TWO_ARROWS_UP)) then Some(DOUBLE_SHARP_TWO_ARROWS_UP)
    else if code == codeOf(CommaArrow(DOUBLE_FLAT_THREE_ARROWS_DOWN)) then Some(DOUBLE_FLAT_THREE_ARROWS_DOWN)
    else if code == codeOf(CommaArrow(FLAT_THREE_ARROWS_DOWN)) then Some(FLAT_THREE_ARROWS_DOWN)
    else if code == codeOf(CommaArrow(NATURAL_THREE_ARROWS_DOWN)) then Some(NATURAL_THREE_ARROWS_DOWN)
    else if code == codeOf(CommaArrow(SHARP_THREE_ARROWS_DOWN)) then Some(SHARP_THREE_ARROWS_DOWN)
    else if code == codeOf(CommaArrow(DOUBLE_SHARP_THREE_ARROWS_DOWN)) then Some(DOUBLE_SHARP_THREE_ARROWS_DOWN)
    else if code == codeOf(CommaArrow(DOUBLE_FLAT_THREE_ARROWS_UP)) then Some(DOUBLE_FLAT_THREE_ARROWS_UP)
    else if code == codeOf(CommaArrow(FLAT_THREE_ARROWS_UP)) then Some(FLAT_THREE_ARROWS_UP)
    else if code == codeOf(CommaArrow(NATURAL_THREE_ARROWS_UP)) then Some(NATURAL_THREE_ARROWS_UP)
    else if code == codeOf(CommaArrow(SHARP_THREE_ARROWS_UP)) then Some(SHARP_THREE_ARROWS_UP)
    else if code == codeOf(CommaArrow(DOUBLE_SHARP_THREE_ARROWS_UP)) then Some(DOUBLE_SHARP_THREE_ARROWS_UP)
    else None
  }

  /**
   * The cases of getAccidentalName's switch for the Comma family, tried in
   * source order: the first sign whose host code is `code`, if any.
   */
  function MatchComma(code: int, codeOf: AccidentalName -> int): (r: Option<CommaSign>)
    ensures r.Some? ==> codeOf(Comma(r.value)) == code
  {
    if code == codeOf(Comma(LOWER_ONE_SEPTIMAL_COMMA)) then Some(LOWER_ONE_SEPTIMAL_COMMA)
    else if code == codeOf(Comma(RAISE_ONE_SEPTIMAL_COMMA)) then Some(RAISE_ONE_SEPTIMAL_COMMA)
    else if code == codeOf(Comma(LOWER_TWO_SEPTIMAL_COMMAS)) then Some(LOWER_TWO_SEPTIMAL_COMMAS)
    else if code == codeOf(Comma(RAISE_TWO_SEPTIMAL_COMMAS)) then Some(RAISE_TWO_SEPTIMAL_COMMAS)
    else if code == codeOf(Comma(LOWER_ONE_UNDECIMAL_QUARTERTONE)) then Some(LOWER_ONE_UNDECIMAL_QUARTERTONE)
    else if code == codeOf(Comma(RAISE_ONE_UNDECIMAL_QUARTERTONE)) then Some(RAISE_ONE_UNDECIMAL_QUARTERTONE)
    else if code == codeOf(Comma(LOWER_ONE_TRIDECIMAL_QUARTERTONE)) then Some(LOWER_ONE_TRIDECIMAL_QUARTERTONE)
    else if code == codeOf(Comma(RAISE_ONE_TRIDECIMAL_QUARTERTONE)) then Some(RAISE_ONE_TRIDECIMAL_QUARTERTONE)
    else None
  }

  /**
   * The cases of getAccidentalName's switch for the EqualTempered family, tried in
   * source order: the first sign whose host code is `code`, if any.
   */
  function MatchEqualTempered(code: int, codeOf: AccidentalName -> int): (r: Option<EqualTemperedSign>)
    ensures r.Some? ==> codeOf(EqualTempered(r.value)) == code
  {
    if code == codeOf(EqualTempered(DOUBLE_FLAT_EQUAL_TEMPERED)) then Some(DOUBLE_FLAT_EQUAL_TEMPERED)
    else if code == codeOf(EqualTempered(FLAT_EQUAL_TEMPERED)) then Some(FLAT_EQUAL_TEMPERED)
    else if code == codeOf(EqualTempered(NATURAL_EQUAL_TEMPERED)) then Some(NATURAL_EQUAL_TEMPERED)
    else if code == codeOf(EqualTempered(SHARP_EQUAL_TEMPERED)) then Some(SHARP_EQUAL_TEMPERED)
    else if code == codeOf(EqualTempered(DOUBLE_SHARP_EQUAL_TEMPERED)) then Some(DOUBLE_SHARP_EQUAL_TEMPERED)
    else if code == codeOf(EqualTempered(QUARTER_FLAT_EQUAL_TEMPERED)) then Some(QUARTER_FLAT_EQUAL_TEMPERED)
    else if code == codeOf(EqualTempered(QUARTER_SHARP_EQUAL_TEMPERED)) then Some(QUARTER_SHARP_EQUAL_TEMPERED)
    else None
  }

  /**
   * The cases of getAccidentalName's switch for the Edo family, tried in
   * source order: the first sign whose host code is `code`, if any.
   */
  function MatchEdo(code: int, codeOf: AccidentalName -> int): (r: Option<EdoSign>)
    ensures r.Some? ==> codeOf(Edo(r.value)) == code
  {
    if code == codeOf(Edo(FLAT_17)) then Some(FLAT_17)
    else if code == codeOf(Edo(SHARP_17)) then Some(SHARP_17)
    else if code == codeOf(Edo(FLAT_19)) then Some(FLAT_19)
    else if code == codeOf(Edo(SHARP_19)) then Some(SHARP_19)
    else if code == codeOf(Edo(FLAT_23)) then Some(FLAT_23)
    else if code == codeOf(Edo(SHARP_23)) then Some(SHARP_23)
    else if code == codeOf(Edo(FLAT_31)) then Some(FLAT_31)
    else if code == codeOf(Edo(SHARP_31)) then Some(SHARP_31)
    else if code == codeOf(Edo(FLAT_53)) then Some(FLAT_53)
    else if code == codeOf(Edo(SHARP_53)) then Some(SHARP_53)
    else None
  }

  /**
   * The cases of getAccidentalName's switch for the Persian family, tried in
   * source order: the first sign whose host code is `code`, if any.
   */
  function MatchPersian(code: int, codeOf: AccidentalName -> int): (r: Option<PersianSign>)
    ensures r.Some? ==> codeOf(Persian(r.value)) == code
  {
    if code == codeOf(Persian(SORI)) then Some(SORI)
    else if code == codeOf(Persian(KORON)) then Some(KORON)
    else None
  }

  /**
   * The cases of getAccidentalName's switch for the Twelfth family, tried in
   * source order: the first sign whose host code is `code`, if any.
   */
  function MatchTwelfth(code: int, codeOf: AccidentalName -> int): (r: Option<TwelfthSign>)
    ensures r.Some? ==> codeOf(Twelfth(r.value)) == code
  {
    if code == codeOf(Twelfth(TEN_TWELFTH_FLAT)) then Some(TEN_TWELFTH_FLAT)
    else if code == codeOf(Twelfth(TEN_TWELFTH_SHARP)) then Some(TEN_TWELFTH_SHARP)
    else if code == codeOf(Twelfth(ELEVEN_TWELFTH_FLAT)) then Some(ELEVEN_TWELFTH_FLAT)
    else if code == codeOf(Twelfth(ELEVEN_TWELFTH_SHARP)) then Some(ELEVEN_TWELFTH_SHARP)
    else if code == codeOf(Twelfth(ONE_TWELFTH_FLAT)) then Some(ONE_TWELFTH_FLAT)
    else if code == codeOf(Twelfth(ONE_TWELFTH_SHARP)) then Some(ONE_TWELFTH_SHARP)
    else if code == codeOf(Twelfth(TWO_TWELFTH_FLAT)) then Some(TWO_TWELFTH_FLAT)
    else if code == codeOf(Twelfth(TWO_TWELFTH_SHARP)) then Some(TWO_TWELFTH_SHARP)
    else if code == codeOf(Twelfth(THREE_TWELFTH_FLAT)) then Some(THREE_TWELFTH_FLAT)
    else if code == codeOf(Twelfth(THREE_TWELFTH_SHARP)) then Some(THREE_TWELFTH_SHARP)
    else if code == codeOf(Twelfth(FOUR_TWELFTH_FLAT)) then Some(FOUR_TWELFTH_FLAT)
    else if code == codeOf(Twelfth(FOUR_TWELFTH_SHARP)) then Some(FOUR_TWELFTH_SHARP)
    else if code == codeOf(Twelfth(FIVE_TWELFTH_FLAT)) then Some(FIVE_TWELFTH_FLAT)
    else if code == codeOf(Twelfth(FIVE_TWELFTH_SHARP)) then Some(FIVE_TWELFTH_SHARP)
    else if code == codeOf(Twelfth(SIX_TWELFTH_FLAT)) then Some(SIX_TWELFTH_FLAT)
    else if code == codeOf(Twelfth(SIX_TWELFTH_SHARP)) then Some(SIX_TWELFTH_SHARP)
    else if code == codeOf(Twelfth(SEVEN_TWELFTH_FLAT)) then Some(SEVEN_TWELFTH_FLAT)
    else if code == codeOf(Twelfth(SEVEN_TWELFTH_SHARP)) then Some(SEVEN_TWELFTH_SHARP)
    else if code == codeOf(Twelfth(EIGHT_TWELFTH_FLAT)) then Some(EIGHT_TWELFTH_FLAT)
    else if code == codeOf(Twelfth(EIGHT_TWELFTH_SHARP)) then Some(EIGHT_TWELFTH_SHARP)
    else if code == codeOf(Twelfth(NINE_TWELFTH_FLAT)) then Some(NINE_TWELFTH_FLAT)
    else if code == codeOf(Twelfth(NINE_TWELFTH_SHARP)) then Some(NINE_TWELFTH_SHARP)
    else None
  }

  /**
   * The cases of getAccidentalName's switch for the Sagittal family, tried in
   * source order: the first sign whose host code is `code`, if any.
   */
  function MatchSagittal(code: int, codeOf: AccidentalName -> int): (r: Option<SagittalSign>)
    ensures r.Some? ==> codeOf(Sagittal(r.value)) == code
  {
    if code == codeOf(Sagittal(SAGITTAL_5V7KD)) then Some(SAGITTAL_5V7KD)
    else if code == codeOf(Sagittal(SAGITTAL_5V7KU)) then Some(SAGITTAL_5V7KU)
    else if code == codeOf(Sagittal(SAGITTAL_5CD)) then Some(SAGITTAL_5CD)
    else if code == codeOf(Sagittal(SAGITTAL_5CU)) then Some(SAGITTAL_5CU)
    else if code == codeOf(Sagittal(SAGITTAL_7CD)) then Some(SAGITTAL_7CD)
    else if code == codeOf(Sagittal(SAGITTAL_7CU)) then Some(SAGITTAL_7CU)
    else if code == codeOf(Sagittal(SAGITTAL_25SDD)) then Some(SAGITTAL_25SDD)
    else if code == codeOf(Sagittal(SAGITTAL_25SDU)) then Some(SAGITTAL_25SDU)
    else if code == codeOf(Sagittal(SAGITTAL_35MDD)) then Some(SAGITTAL_35MDD)
    else if code == codeOf(Sagittal(SAGITTAL_35MDU)) then Some(SAGITTAL_35MDU)
    else if code == codeOf(Sagittal(SAGITTAL_11MDD)) then Some(SAGITTAL_11MDD)
    else if code == codeOf(Sagittal(SAGITTAL_11MDU)) then Some(SAGITTAL_11MDU)
    else if code == codeOf(Sagittal(SAGITTAL_11LDD)) then Some(SAGITTAL_11LDD)
    else if code == codeOf(Sagittal(SAGITTAL_11LDU)) then Some(SAGITTAL_11LDU)
    else if code == codeOf(Sagittal(SAGITTAL_35LDD)) then Some(SAGITTAL_35LDD)
    else if code == codeOf(Sagittal(SAGITTAL_35LDU)) then Some(SAGITTAL_35LDU)
    else if code == codeOf(Sagittal(SAGITTAL_FLAT25SU)) then Some(SAGITTAL_FLAT25SU)
    else if code == codeOf(Sagittal(SAGITTAL_SHARP25SD)) then Some(SAGITTAL_SHARP25SD)
    else if code == codeOf(Sagittal(SAGITTAL_FLAT7CU)) then Some(SAGITTAL_FLAT7CU)
    else if code == codeOf(Sagittal(SAGITTAL_SHARP7CD)) then Some(SAGITTAL_SHARP7CD)
    else if code == codeOf(Sagittal(SAGITTAL_SHARP5CD)) then Some(SAGITTAL_SHARP5CD)
    else if code == codeOf(Sagittal(SAGITTAL_SHARP5V7KD)) then Some(SAGITTAL_SHARP5V7KD)
    else if code == codeOf(Sagittal(SAGITTAL_FLAT5CU)) then Some(SAGITTAL_FLAT5CU)
    else if code == codeOf(Sagittal(SAGITTAL_FLAT5V7KU)) then Some(SAGITTAL_FLAT5V7KU)
    else if code == codeOf(Sagittal(SAGITTAL_FLAT)) then Some(SAGITTAL_FLAT)
    else if code == codeOf(Sagittal(SAGITTAL_SHARP)) then Some(SAGITTAL_SHARP)
    else None
  }

  /** The outcome of getAccidentalName: a name, or the error it throws. */
  datatype NameResult =
    | Name(name: AccidentalName)
    | OutOfBound(accidentalType: int)
    | Unrecognised(accidentalType: int)

  /**
   * getAccidentalName: the note's accidental type is first bound-checked
   * against [0, 256) and then compared with the host code of every name, in
   * source order.  `codeOf` gives the host's Accidental enumeration values.
   */
  function GetAccidentalName(note: Note, codeOf: AccidentalName -> int): (r: NameResult)
    ensures note.accidentalType < 0 || note.accidentalType >= 256 ==> r == OutOfBound(note.accidentalType)
    ensures 0 <= note.accidentalType < 256 ==> !r.OutOfBound?
  {
    var code := note.accidentalType;
    if code < 0 || code >= 256 then OutOfBound(code)
    else
    var standard := MatchStandard(code, codeOf);
    if standard.Some? then Name(Standard(standard.value)) else
    var quarterArrow := MatchQuarterArrow(code, codeOf);
    if quarterArrow.Some? then Name(QuarterArrow(quarterArrow.value)) else
    var slashed := MatchSlashed(code, codeOf);
    if slashed.Some? then Name(Slashed(slashed.value)) else
    var commaArrow := MatchCommaArrow(code, codeOf);
    if commaArrow.Some? then Name(CommaArrow(commaArrow.value)) else
    var comma := MatchComma(code, codeOf);
    if comma.Some? then Name(Comma(comma.value)) else
    var equalTempered := MatchEqualTempered(code, codeOf);
    if equalTempered.Some? then Name(EqualTempered(equalTempered.value)) else
    var edo := MatchEdo(code, codeOf);
    if edo.Some? then Name(Edo(edo.value)) else
    var persian := MatchPersian(code, codeOf);
    if persian.Some? then Name(Persian(persian.value)) else
    var twelfth := MatchTwelfth(code, codeOf);
    if twelfth.Some? then Name(Twelfth(twelfth.value)) else
    var sagittal := MatchSagittal(code, codeOf);
    if sagittal.Some? then Name(Sagittal(sagittal.value)) else
    Unrecognised(code)
  }

  /** A name is returned only for an in-range code that is that name's host code. */
  lemma NamedCodeMatches(note: Note, codeOf: AccidentalName -> int)
    ensures GetAccidentalName(note, codeOf).Name? ==>
      0 <= note.accidentalType < 256 && codeOf(GetAccidentalName(note, codeOf).name) == note.accidentalType
  {
  }

  /**
   * The switch never falls through to its default for a code some name
   * carries, and it does for every in-range code that no name carries.
   */
  lemma UnrecognisedExactly(note: Note, codeOf: AccidentalName -> int)
    ensures GetAccidentalName(note, codeOf).Unrecognised? <==>
      0 <= note.accidentalType < 256 && forall n :: codeOf(n) != note.accidentalType
  {
    var code := note.accidentalType;
    if GetAccidentalName(note, codeOf).Unrecognised? {
      forall n
        ensures codeOf(n) != code
      {
        match n
        case Standard(s) =>
          match s {
            case NONE =>
            case FLAT =>
            case NATURAL =>
            case SHARP =>
            case SHARP2 =>
            case FLAT2 =>
            case SHARP3 =>
            case FLAT3 =>
            case NATURAL_FLAT =>
            case NATURAL_SHARP =>
            case SHARP_SHARP =>
          }
        case QuarterArrow(s) =>
          match s {
            case FLAT_ARROW_UP =>
            case FLAT_ARROW_DOWN =>
            case NATURAL_ARROW_UP =>
            case NATURAL_ARROW_DOWN =>
            case SHARP_ARROW_UP =>
            case SHARP_ARROW_DOWN =>
            case SHARP2_ARROW_UP =>
            case SHARP2_ARROW_DOWN =>
            case FLAT2_ARROW_UP =>
            case FLAT2_ARROW_DOWN =>
            case ARROW_DOWN =>
            case ARROW_UP =>
          }
        case Slashed(s) =>
          match s {
            case MIRRORED_FLAT =>
            case MIRRORED_FLAT2 =>
            case SHARP_SLASH =>
            case SHARP_SLASH4 =>
            case FLAT_SLASH2 =>
            case FLAT_SLASH =>
            case SHARP_SLASH3 =>
            case SHARP_SLASH2 =>
          }
        case CommaArrow(s) =>
          match s {
            case DOUBLE_FLAT_ONE_ARROW_DOWN =>
            case FLAT_ONE_ARROW_DOWN =>
            case NATURAL_ONE_ARROW_DOWN =>
            case SHARP_ONE_ARROW_DOWN =>
            case DOUBLE_SHARP_ONE_ARROW_DOWN =>
            case DOUBLE_FLAT_ONE_ARROW_UP =>
            case FLAT_ONE_ARROW_UP =>
            case NATURAL_ONE_ARROW_UP =>
            case SHARP_ONE_ARROW_UP =>
            case DOUBLE_SHARP_ONE_ARROW_UP =>
            case DOUBLE_FLAT_TWO_ARROWS_DOWN =>
            case FLAT_TWO_ARROWS_DOWN =>
            case NATURAL_TWO_ARROWS_DOWN =>
            case SHARP_TWO_ARROWS_DOWN =>
            case DOUBLE_SHARP_TWO_ARROWS_DOWN =>
            case DOUBLE_FLAT_TWO_ARROWS_UP =>
            case FLAT_TWO_ARROWS_UP =>
            case NATURAL_TWO_ARROWS_UP =>
            case SHARP_TWO_ARROWS_UP =>
            case DOUBLE_SHARP_TWO_ARROWS_UP =>
            case DOUBLE_FLAT_THREE_ARROWS_DOWN =>
            case FLAT_THREE_ARROWS_DOWN =>
            case NATURAL_THREE_ARROWS_DOWN =>
            case SHARP_THREE_ARROWS_DOWN =>
            case DOUBLE_SHARP_THREE_ARROWS_DOWN =>
            case DOUBLE_FLAT_THREE_ARROWS_UP =>
            case FLAT_THREE_ARROWS_UP =>
            case NATURAL_THREE_ARROWS_UP =>
            case SHARP_THREE_ARROWS_UP =>
            case DOUBLE_SHARP_THREE_ARROWS_UP =>
          }
        case Comma(s) =>
          match s {
            case LOWER_ONE_SEPTIMAL_COMMA =>
            case RAISE_ONE_SEPTIMAL_COMMA =>
            case LOWER_TWO_SEPTIMAL_COMMAS =>
            case RAISE_TWO_SEPTIMAL_COMMAS =>
            case LOWER_ONE_UNDECIMAL_QUARTERTONE =>
            case RAISE_ONE_UNDECIMAL_QUARTERTONE =>
            case LOWER_ONE_TRIDECIMAL_QUARTERTONE =>
            case RAISE_ONE_TRIDECIMAL_QUARTERTONE =>
          }
        case EqualTempered(s) =>
          match s {
            case DOUBLE_FLAT_EQUAL_TEMPERED =>
            case FLAT_EQUAL_TEMPERED =>
            case NATURAL_EQUAL_TEMPERED =>
            case SHARP_EQUAL_TEMPERED =>
            case DOUBLE_SHARP_EQUAL_TEMPERED =>
            case QUARTER_FLAT_EQUAL_TEMPERED =>
            case QUARTER_SHARP_EQUAL_TEMPERED =>
          }
        case Edo(s) =>
          match s {
            case FLAT_17 =>
            case SHARP_17 =>
            case FLAT_19 =>
            case SHARP_19 =>
            case FLAT_23 =>
            case SHARP_23 =>
            case FLAT_31 =>
            case SHARP_31 =>
            case FLAT_53 =>
            case SHARP_53 =>
          }
        case Persian(s) =>
          match s {
            case SORI =>
            case KORON =>
          }
        case Twelfth(s) =>
          match s {
            case TEN_TWELFTH_FLAT =>
            case TEN_TWELFTH_SHARP =>
            case ELEVEN_TWELFTH_FLAT =>
            case ELEVEN_TWELFTH_SHARP =>
            case ONE_TWELFTH_FLAT =>
            case ONE_TWELFTH_SHARP =>
            case TWO_TWELFTH_FLAT =>
            case TWO_TWELFTH_SHARP =>
            case THREE_TWELFTH_FLAT =>
            case THREE_TWELFTH_SHARP =>
            case FOUR_TWELFTH_FLAT =>
            case FOUR_TWELFTH_SHARP =>
            case FIVE_TWELFTH_FLAT =>
            case FIVE_TWELFTH_SHARP =>
            case SIX_TWELFTH_FLAT =>
            case SIX_TWELFTH_SHARP =>
            case SEVEN_TWELFTH_FLAT =>
            case SEVEN_TWELFTH_SHARP =>
            case EIGHT_TWELFTH_FLAT =>
            case EIGHT_TWELFTH_SHARP =>
            case NINE_TWELFTH_FLAT =>
            case NINE_TWELFTH_SHARP =>
          }
        case Sagittal(s) =>
          match s {
            case SAGITTAL_5V7KD =>
            case SAGITTAL_5V7KU =>
            case SAGITTAL_5CD =>
            case SAGITTAL_5CU =>
            case SAGITTAL_7CD =>
            case SAGITTAL_7CU =>
            case SAGITTAL_25SDD =>
            case SAGITTAL_25SDU =>
            case SAGITTAL_35MDD =>
            case SAGITTAL_35MDU =>
            case SAGITTAL_11MDD =>
            case SAGITTAL_11MDU =>
            case SAGITTAL_11LDD =>
            case SAGITTAL_11LDU =>
            case SAGITTAL_35LDD =>
            case SAGITTAL_35LDU =>
            case SAGITTAL_FLAT25SU =>
            case SAGITTAL_SHARP25SD =>
            case SAGITTAL_FLAT7CU =>
            case SAGITTAL_SHARP7CD =>
            case SAGITTAL_SHARP5CD =>
            case SAGITTAL_SHARP5V7KD =>
            case SAGITTAL_FLAT5CU =>
            case SAGITTAL_FLAT5V7KU =>
            case SAGITTAL_FLAT =>
            case SAGITTAL_SHARP =>
          }
      }
    }
  }

  /** Distinct names have distinct host codes, as the host's enumeration does. */
  ghost predicate Injective(codeOf: AccidentalName -> int)
  {
    forall m, n :: codeOf(m) == codeOf(n) ==> m == n
  }

  /**
   * With distinct host codes, getAccidentalName inverts the enumeration on
   * every in-range code.
   */
  lemma GetAccidentalNameInverse(note: Note, codeOf: AccidentalName -> int, n: AccidentalName)
    requires Injective(codeOf)
    requires 0 <= codeOf(n) < 256 && note.accidentalType == codeOf(n)
    ensures GetAccidentalName(note, codeOf) == Name(n)
  {
    UnrecognisedExactly(note, codeOf);
    NamedCodeMatches(note, codeOf);
  }
}
