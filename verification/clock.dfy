/** Instants, fixed offsets from "now", and the lossy 'YYYY/MM/DD' day format
    the duration panel persists. */
module Clock {
  import opened Values

  const MinuteMs: nat := 60_000
  const HourMs: nat := 60 * MinuteMs
  const DayMs: nat := 24 * HourMs
  /** Calendar months are approximated by thirty days. */
  const MonthMs: nat := 30 * DayMs

  /** An amount of time to subtract from "now". */
  datatype Span = Minutes(n: nat) | Hours(n: nat) | Days(n: nat) | Months(n: nat)

  function SpanMs(s: Span): (ms: nat)
    ensures ms > 0 <==> s.n > 0
    ensures ms >= s.n * MinuteMs
  {
    match s
    case Minutes(n) => n * MinuteMs
    case Hours(n) => n * HourMs
    case Days(n) => n * DayMs
    case Months(n) => n * MonthMs
  }

  /** The text of a date field: '' (nothing picked), a day 'YYYY/MM/DD'
      (counted in days since the epoch), or moment's 'Invalid date'. */
  datatype DateText = Blank | DayText(day: int) | InvalidText

  /** The first instant of the day that `ms` falls in. */
  function DayStart(ms: int): (d: int)
    ensures d <= ms < d + DayMs
    ensures d % DayMs == 0
  {
    (ms / DayMs) * DayMs
  }

  /** `m.format('YYYY/MM/DD')`. */
  function Format(m: Moment): (t: DateText)
    ensures !t.Blank?
    ensures t.InvalidText? <==> m.Invalid?
  {
    match m
    case Valid(ms) => DayText(ms / DayMs)
    case Invalid => InvalidText
  }

  /** `moment(t, 'YYYY/MM/DD')`: the start of the day, or an invalid moment
      for '' and for 'Invalid date'. */
  function Parse(t: DateText): (m: Moment)
    ensures m.Valid? <==> t.DayText?
  {
    match t
    case DayText(d) => Valid(d * DayMs)
    case _ => Invalid
  }

  /** Writing an instant as a day and reading it back yields the start of
      that day: the round trip loses exactly the time of day. */
  lemma FormatThenParse(ms: int)
    ensures Parse(Format(Valid(ms))) == Valid(DayStart(ms))
    ensures DayStart(ms) <= ms < DayStart(ms) + DayMs
  {
  }

  /** The day text is stable under a second round trip. */
  lemma ParseThenFormat(t: DateText)
    requires !t.Blank?
    ensures Format(Parse(t)) == t
  {
  }
}
