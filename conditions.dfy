/**
 * The condition labels the app offers in its select boxes: crowd level,
 * companions and wait tolerance. The app passes them around as strings;
 * each label set is a datatype here, with its display label and a parser
 * that recognises exactly those labels.
 */
module Conditions {
  import opened Wrappers

  /** Crowd level of the day (混雑度). */
  datatype Crowd = Quiet | Usual | Busy | Packed {
    function Label(): string {
      match this
      case Quiet => "閑散"
      case Usual => "通常"
      case Busy => "混雑"
      case Packed => "超混雑（完売級）"
    }

    /** Position in the select box, from the quietest day to the most crowded. */
    function Level(): nat {
      match this
      case Quiet => 0
      case Usual => 1
      case Busy => 2
      case Packed => 3
    }
  }

  /** Who comes along (同伴者). */
  datatype Companions = AdultsOnly | Preschool | LowerGrades | UpperGrades {
    function Label(): string {
      match this
      case AdultsOnly => "大人のみ"
      case Preschool => "子連れ（未就学）"
      case LowerGrades => "子連れ（小学校低学年）"
      case UpperGrades => "子連れ（小学校高学年）"
    }

    /** How demanding the group is: adults only lowest, preschool children highest. */
    function Burden(): nat {
      match this
      case AdultsOnly => 0
      case UpperGrades => 1
      case LowerGrades => 2
      case Preschool => 3
    }
  }

  /** How long the group is willing to queue (待ち許容). */
  datatype WaitTolerance = Upto30 | Upto60 | Upto90 {
    function Label(): string {
      match this
      case Upto30 => "30分まで"
      case Upto60 => "60分まで"
      case Upto90 => "90分まで"
    }

    function Minutes(): nat {
      match this
      case Upto30 => 30
      case Upto60 => 60
      case Upto90 => 90
    }
  }

  /** The crowd level a label names, or None for any other text. */
  function ParseCrowd(s: string): (r: Option<Crowd>)
    ensures forall c: Crowd :: r == Some(c) <==> s == c.Label()
  {
    if s == Quiet.Label() then Some(Quiet)
    else if s == Usual.Label() then Some(Usual)
    else if s == Busy.Label() then Some(Busy)
    else if s == Packed.Label() then Some(Packed)
    else None
  }

  /** The companion group a label names, or None for any other text. */
  function ParseCompanions(s: string): (r: Option<Companions>)
    ensures forall g: Companions :: r == Some(g) <==> s == g.Label()
  {
    if s == AdultsOnly.Label() then Some(AdultsOnly)
    else if s == Preschool.Label() then Some(Preschool)
    else if s == LowerGrades.Label() then Some(LowerGrades)
    else if s == UpperGrades.Label() then Some(UpperGrades)
    else None
  }

  /** The wait tolerance a label names, or None for any other text. */
  function ParseWaitTolerance(s: string): (r: Option<WaitTolerance>)
    ensures forall w: WaitTolerance :: r == Some(w) <==> s == w.Label()
  {
    if s == Upto30.Label() then Some(Upto30)
    else if s == Upto60.Label() then Some(Upto60)
    else if s == Upto90.Label() then Some(Upto90)
    else None
  }
}
