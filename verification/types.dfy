/**
 * The entities shared by the app: the four emotion labels, the supported
 * locales, a diary entry (`DailyLog`), a chat message, and the calendar
 * facts the wall clock supplies.
 */
module Types {
  import opened Wrappers

  /** The emotion labels, in the order the classifier lists them: 안정, 피곤, 불안, 혼란. */
  datatype Label = Stable | Tired | Anxious | Confused

  /** The label's key as stored in a log (the Korean word). */
  function LabelKey(l: Label): string {
    match l
    case Stable => "안정"
    case Tired => "피곤"
    case Anxious => "불안"
    case Confused => "혼란"
  }

  datatype Locale = Ko | En | Ja

  /** The display name of a label in a locale. */
  function LabelName(locale: Locale, l: Label): string {
    match locale
    case Ko => LabelKey(l)
    case En => (match l case Stable => "Stable" case Tired => "Tired" case Anxious => "Anxious" case Confused => "Confused")
    case Ja => (match l case Stable => "安定" case Tired => "疲れ" case Anxious => "不安" case Confused => "混乱")
  }

  /** A diary entry as the app stores it. */
  datatype DailyLog = DailyLog(
    id: string,
    createdAtISO: string,
    content: string,
    emotion: Label,
    emotionSummary: string)

  datatype Role = User | Assistant

  datatype ChatMessage = ChatMessage(id: string, role: Role, text: string, createdAtISO: string)

  type Month = m: int | 1 <= m <= 12 witness 1
  type Day = d: int | 1 <= d <= 31 witness 1

  /** A local calendar date. */
  datatype Ymd = Ymd(year: int, month: Month, day: Day)

  /**
   * What the wall clock and the date library supply: the current time in
   * milliseconds, `new Date(s).getTime()` (`None` for an invalid date), the
   * local calendar date of a time, and the time `k` months before now
   * (`setMonth(getMonth() - k)` on a copy of now, for a finite `k`; `None`
   * when that falls outside the range a `Date` can hold).
   */
  datatype Clock = Clock(
    now: int,
    parse: string -> Option<int>,
    localDate: int -> Ymd,
    monthsBack: real -> Option<int>)

  /** The local calendar date of an ISO string, `None` when it does not parse. */
  function DateOf(clock: Clock, iso: string): Option<Ymd> {
    match clock.parse(iso)
    case Some(t) => Some(clock.localDate(t))
    case None => None
  }
}
