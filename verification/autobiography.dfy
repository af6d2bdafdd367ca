/**
 * The autobiography of `mobile/src/ai/autobiography.ts`: the diary entries of
 * a period — between two chosen dates, or the last few months — counted,
 * with their most frequent label and the first line of their longest entry,
 * set in four paragraphs like the monthly report.
 *
 * The wall clock, date parsing and month arithmetic come from the `Clock`;
 * the text of a fractional or huge month count is the parameter `numText`.
 */
module Autobiography {
  import opened Wrappers
  import opened Text
  import opened Seqs
  import opened Types
  import opened JsNumber
  import Monthly

  // ---------------------------------------------------------------------------
  // Choosing the period
  // ---------------------------------------------------------------------------

  /** `Math.min` of two times, where an invalid time (NaN) wins. */
  function MinTime(a: Option<int>, b: Option<int>): Option<int> {
    if a.None? || b.None? then None else Some(if a.value <= b.value then a.value else b.value)
  }

  /** `Math.max` of two times, where an invalid time (NaN) wins. */
  function MaxTime(a: Option<int>, b: Option<int>): Option<int> {
    if a.None? || b.None? then None else Some(if a.value <= b.value then b.value else a.value)
  }

  /**
   * `inRange`: the entry's time `t` lies between the two ends, taken in
   * either order, both ends included. If any of the three does not parse,
   * the NaN makes every comparison false.
   */
  function InRange(t: Option<int>, a: Option<int>, b: Option<int>): (r: bool)
    ensures r <==> t.Some? && a.Some? && b.Some? &&
                   ((a.value <= t.value <= b.value) || (b.value <= t.value <= a.value))
  {
    var lo := MinTime(a, b);
    var hi := MaxTime(a, b);
    t.Some? && lo.Some? && hi.Some? && lo.value <= t.value && t.value <= hi.value
  }

  /**
   * `inLastMonths`: the entry's time lies between `months` months before
   * now and now. A month count that is not finite or below 1 keeps nothing,
   * and so does a start the calendar cannot represent.
   */
  function InLastMonths(clock: Clock, iso: string, months: JsNum): (r: bool)
    ensures r ==> months.Finite? && months.x >= 1.0
    ensures r ==> clock.parse(iso).Some? && clock.parse(iso).value <= clock.now
    ensures r ==> clock.monthsBack(months.x).Some? && clock.monthsBack(months.x).value <= clock.parse(iso).value
  {
    if !months.Finite? || months.x < 1.0 then false
    else
      var t := clock.parse(iso);
      var start := clock.monthsBack(months.x);
      t.Some? && start.Some? && start.value <= t.value && t.value <= clock.now
  }

  /**
   * A longer window keeps every entry a shorter one keeps, as long as going
   * further back gives an earlier, representable start.
   */
  lemma LongerWindowKeepsMore(clock: Clock, iso: string, m1: real, m2: real)
    requires 1.0 <= m1 <= m2
    requires clock.monthsBack(m2).Some?
    requires clock.monthsBack(m1).Some? ==> clock.monthsBack(m2).value <= clock.monthsBack(m1).value
    ensures InLastMonths(clock, iso, Finite(m1)) ==> InLastMonths(clock, iso, Finite(m2))
  {
  }

  /** `params.startISO && params.endISO`: both ends given and neither empty. */
  predicate UseRange(startISO: Option<string>, endISO: Option<string>) {
    startISO.Some? && startISO.value != "" && endISO.Some? && endISO.value != ""
  }

  /** The month count of the fallback window: `params.months ?? 12`. */
  function MonthsOf(months: Option<JsNum>): JsNum {
    months.GetOr(Finite(12.0))
  }

  /** Whether an entry belongs to the period. */
  function KeptBy(clock: Clock, months: Option<JsNum>, startISO: Option<string>, endISO: Option<string>): DailyLog -> bool {
    if UseRange(startISO, endISO) then
      (l: DailyLog) => InRange(clock.parse(l.createdAtISO), clock.parse(startISO.value), clock.parse(endISO.value))
    else
      (l: DailyLog) => InLastMonths(clock, l.createdAtISO, MonthsOf(months))
  }

  /** The entries of the period, in their original order. */
  function Period(logs: seq<DailyLog>, clock: Clock, months: Option<JsNum>,
                  startISO: Option<string>, endISO: Option<string>): (r: seq<DailyLog>)
    ensures |r| <= |logs|
  {
    Filter(logs, KeptBy(clock, months, startISO, endISO))
  }

  /**
   * With both ends given, the period holds every entry whose time lies
   * between them (in either order) and nothing else; otherwise every entry
   * of the last `months` months (12 when not given).
   */
  lemma PeriodKeeps(logs: seq<DailyLog>, clock: Clock, months: Option<JsNum>,
                    startISO: Option<string>, endISO: Option<string>)
    ensures UseRange(startISO, endISO) ==>
              forall l :: multiset(Period(logs, clock, months, startISO, endISO))[l] ==
                            if InRange(clock.parse(l.createdAtISO), clock.parse(startISO.value), clock.parse(endISO.value))
                            then multiset(logs)[l] else 0
    ensures !UseRange(startISO, endISO) ==>
              forall l :: multiset(Period(logs, clock, months, startISO, endISO))[l] ==
                            if InLastMonths(clock, l.createdAtISO, MonthsOf(months)) then multiset(logs)[l] else 0
  {
    FilterCounts(logs, KeptBy(clock, months, startISO, endISO));
  }

  /** Swapping the two ends of a range selects the same entries. */
  lemma RangeEndsCommute(logs: seq<DailyLog>, clock: Clock, months: Option<JsNum>, startISO: string, endISO: string)
    requires startISO != "" && endISO != ""
    ensures Period(logs, clock, months, Some(startISO), Some(endISO)) == Period(logs, clock, months, Some(endISO), Some(startISO))
  {
    var p, q := KeptBy(clock, months, Some(startISO), Some(endISO)), KeptBy(clock, months, Some(endISO), Some(startISO));
    forall l: DailyLog
      ensures p(l) == q(l)
    {
      assert p(l) == InRange(clock.parse(l.createdAtISO), clock.parse(startISO), clock.parse(endISO));
    }
    FilterSame(logs, KeptBy(clock, months, Some(startISO), Some(endISO)), KeptBy(clock, months, Some(endISO), Some(startISO)));
  }

  // ---------------------------------------------------------------------------
  // Dates in the opening paragraph
  // ---------------------------------------------------------------------------

  /**
   * `fmtYmd`: `YYYY-MM-DD` in English, `YYYY.MM.DD` in Korean and
   * `YYYY年M月D日` in Japanese. An invalid date reads `NaN` in every part.
   */
  function FmtYmd(d: Option<Ymd>, locale: Locale): (r: string)
    ensures d.None? && locale == En ==> r == "NaN-NaN-NaN"
    ensures d.None? && locale == Ko ==> r == "NaN.NaN.NaN"
    ensures d.None? && locale == Ja ==> r == "NaN年NaN月NaN日"
  {
    var y := if d.Some? then IntToString(d.value.year) else "NaN";
    var m := if d.Some? then Padded2(d.value.month) else "NaN";
    var day := if d.Some? then Padded2(d.value.day) else "NaN";
    assert !IsDigit("NaN"[0]);
    match locale
    case En => y + "-" + m + "-" + day
    case Ko => y + "." + m + "." + day
    case Ja => y + "年" + NumberText(m) + "月" + NumberText(day) + "日"
  }

  /** The Japanese date names the month and the day without padding. */
  lemma FmtYmdJa(d: Ymd)
    ensures FmtYmd(Some(d), Ja) == IntToString(d.year) + "年" + IntToString(d.month) + "月" + IntToString(d.day) + "日"
  {
  }

  /** The English and Korean dates are the three fields joined by the separator. */
  lemma FmtYmdJoined(d: Ymd, locale: Locale, c: char)
    requires (locale == En && c == '-') || (locale == Ko && c == '.')
    ensures FmtYmd(Some(d), locale) == Join([IntToString(d.year), Padded2(d.month), Padded2(d.day)], [c])
  {
    Join3(IntToString(d.year), Padded2(d.month), Padded2(d.day), [c]);
  }

  /** A year is printed without a dot, and a year that is not negative without a dash. */
  lemma YearWithout(y: int, c: char)
    requires (c == '-' && y >= 0) || c == '.'
    ensures c !in IntToString(y)
  {
    if y < 0 {
      assert IntToString(y) == "-" + NatToString(-y);
      assert forall i :: 1 <= i < |IntToString(y)| ==> IsDigit(IntToString(y)[i]);
    }
  }

  /** A date's text splits back into its year, month and day. */
  lemma FmtYmdSplit(d: Ymd, locale: Locale, c: char)
    requires (locale == En && c == '-' && d.year >= 0) || (locale == Ko && c == '.')
    ensures Split(FmtYmd(Some(d), locale), c) == [IntToString(d.year), Padded2(d.month), Padded2(d.day)]
  {
    var parts := [IntToString(d.year), Padded2(d.month), Padded2(d.day)];
    assert Split(Join(parts, [c]), c) == parts by {
      YearWithout(d.year, c);
      assert c !in Padded2(d.month) && c !in Padded2(d.day);
      SplitOfJoin(parts, c);
    }
    FmtYmdJoined(d, locale, c);
  }

  /** Distinct dates are shown as distinct texts in the two padded forms. */
  lemma FmtYmdInjective(a: Ymd, b: Ymd, locale: Locale)
    requires locale == Ko || (locale == En && a.year >= 0 && b.year >= 0)
    ensures FmtYmd(Some(a), locale) == FmtYmd(Some(b), locale) <==> a == b
  {
    var c := if locale == En then '-' else '.';
    if FmtYmd(Some(a), locale) == FmtYmd(Some(b), locale) {
      FmtYmdSplit(a, locale, c);
      FmtYmdSplit(b, locale, c);
      IntToStringInjective(a.year, b.year);
      assert Padded2(a.month) == Padded2(b.month);
      assert Padded2(a.day) == Padded2(b.day);
    }
  }

  // ---------------------------------------------------------------------------
  // makeAutobiography
  // ---------------------------------------------------------------------------

  datatype Bio = Bio(title: string, body: string)

  /**
   * The fixed wording of the autobiography in one locale: the title, the
   * body for an empty period, the text around the two dates of a range or
   * the month count of a window, the text after the entry count, and the
   * label, highlight and closing paragraphs.
   */
  datatype BioPhrases = BioPhrases(
    title: string,
    empty: string,
    rangeOpen: string,
    rangeMid: string,
    rangeClose: string,
    monthsOpen: string,
    monthsClose: string,
    countClose: string,
    moodOpen: string,
    moodClose: string,
    noMood: string,
    lineOpen: string,
    lineClose: string,
    noLine: string,
    closing: string)

  /** The opening words of the first paragraph: the two dates, or the month count. */
  function Opening(p: BioPhrases, clock: Clock, locale: Locale, months: Option<JsNum>,
                   startISO: Option<string>, endISO: Option<string>, numText: real -> string): string {
    if UseRange(startISO, endISO) then
      p.rangeOpen + FmtYmd(DateOf(clock, startISO.value), locale) + p.rangeMid
        + FmtYmd(DateOf(clock, endISO.value), locale) + p.rangeClose
    else p.monthsOpen + ToText(MonthsOf(months), numText) + p.monthsClose
  }

  /** The same four paragraphs as the monthly report, opened by `opening`. */
  /**
   * The body of an autobiography of the entries `kept`: the paragraphs of a
   * report joined by blank lines, with the highlight cut to 90 characters.
   */
  function Body(p: Monthly.MonthlyPhrases, locale: Locale, kept: seq<DailyLog>): string {
    Join(Monthly.Paragraphs(p, locale, |kept|, Monthly.TopEmotion(kept), Monthly.HighlightLine(kept, 90)), "\n\n")
  }

  function AsReport(p: BioPhrases, opening: string): Monthly.MonthlyPhrases {
    Monthly.MonthlyPhrases(p.title, p.empty, opening, p.countClose, p.moodOpen, p.moodClose, p.noMood,
                           p.lineOpen, p.lineClose, p.noLine, p.closing)
  }

  /**
   * The autobiography in the wording `p`. An empty period gets the fixed
   * empty text; otherwise the body is the four paragraphs of the monthly
   * report joined by blank lines, the first one opened by the period: the
   * number of entries, their most frequent label, the highlight of the
   * longest one cut to 90 characters, and the closing paragraph. The title
   * never changes.
   */
  function BioWith(p: BioPhrases, logs: seq<DailyLog>, locale: Locale, clock: Clock, months: Option<JsNum>,
                   startISO: Option<string>, endISO: Option<string>, numText: real -> string): (r: Bio)
    ensures r.title == p.title
    ensures |Period(logs, clock, months, startISO, endISO)| == 0 ==> r.body == p.empty
    ensures |Period(logs, clock, months, startISO, endISO)| > 0 ==>
      StartsWith(r.body, Opening(p, clock, locale, months, startISO, endISO, numText)
                           + IntToString(|Period(logs, clock, months, startISO, endISO)|) + p.countClose)
      && EndsWith(r.body, p.closing)
    ensures var kept := Period(logs, clock, months, startISO, endISO);
      |kept| > 0 ==>
        r.body == Body(AsReport(p, Opening(p, clock, locale, months, startISO, endISO, numText)), locale, kept)
  {
    var kept := Period(logs, clock, months, startISO, endISO);
    if |kept| == 0 then Bio(p.title, p.empty)
    else
      var report := AsReport(p, Opening(p, clock, locale, months, startISO, endISO, numText));
      var paragraphs := Monthly.Paragraphs(report, locale, |kept|, Monthly.TopEmotion(kept), Monthly.HighlightLine(kept, 90));
      JoinEnds(paragraphs, "\n\n");
      Bio(p.title, Join(paragraphs, "\n\n"))
  }

  /**
   * A non-empty period is always described by real data: in a range both
   * dates parse, and in a window the month count is a finite number of at
   * least 1.
   */
  lemma OpeningIsValid(logs: seq<DailyLog>, clock: Clock, months: Option<JsNum>,
                       startISO: Option<string>, endISO: Option<string>)
    requires |Period(logs, clock, months, startISO, endISO)| > 0
    ensures UseRange(startISO, endISO) ==> DateOf(clock, startISO.value).Some? && DateOf(clock, endISO.value).Some?
    ensures !UseRange(startISO, endISO) ==> MonthsOf(months).Finite? && MonthsOf(months).x >= 1.0
  {
    var l := Period(logs, clock, months, startISO, endISO)[0];
    assert KeptBy(clock, months, startISO, endISO)(l);
    if UseRange(startISO, endISO) {
      assert InRange(clock.parse(l.createdAtISO), clock.parse(startISO.value), clock.parse(endISO.value));
    }
  }

  function BioKo(): BioPhrases {
    BioPhrases(
      "자서전",
      "이 기간의 기록이 " + "아직 없어요.\n\n작은 " + "한 문장부터 시작해도 " + "괜찮아요. 그곳에서 " + "이야기가 시작됩니다.",
      "",
      "부터 ",
      "까지, 나는 ",
      "지난 ",
      "개월 동안, 나는 ",
      "번의 기록으로 나를 " + "남겼어요. 하나하나가 " + "‘계속 살아낸’ " + "증거예요.",
      "가장 자주 등장한 " + "정서는 ‘",
      "’였어요. 이것은 " + "평가가 아니라, " + "내게 중요했던 것의 " + "신호예요.",
      "감정은 한 가지로만 " + "정리되지 않았고, " + "여러 결이 함께 " + "얽혀 있었던 것 " + "같아요.",
      "특히 마음에 남은 " + "한 줄은 “",
      "…”였어요. 그 " + "순간의 나에게 다정하게 " + "답해준다면, 어떤 " + "말을 해주고 싶나요?",
      "이 기간 동안 기억해두고 " + "싶은 순간은 무엇인가요? " + "한 문장으로 이름 " + "붙여볼 수 있어요.",
      "내 이야기는 완벽할 " + "필요가 없어요. " + "그저 ‘내 것’이면 " + "충분해요. 조용히, " + "비공개로, 솔직하게.")
  }

  function BioEn(): BioPhrases {
    BioPhrases(
      "Autobiography",
      "There are no logs " + "in this period " + "yet.\n\nStart with " + "one small sentence—your " + "story begins there.",
      "From ",
      " to ",
      ", I left ",
      "Over the last ",
      " months, I left ",
      " logs for myself. " + "Each entry is " + "a quiet proof " + "that I kept going.",
      "The emotion that " + "appeared most " + "often was “",
      "”. It’s not a " + "verdict—it’s a " + "signal about what " + "mattered to me.",
      "My emotions didn’t " + "fit into one box—more " + "like several threads " + "woven together.",
      "One line that " + "stayed with me " + "was: “",
      "…”. If I could " + "reply to that " + "moment with kindness, " + "what would I say?",
      "What moment do " + "I want to remember " + "from this period? " + "I can name it " + "in one sentence.",
      "My story doesn’t " + "need to be perfect. " + "It only needs " + "to be mine—quietly, " + "privately, and " + "honestly.")
  }

  function BioJa(): BioPhrases {
    BioPhrases(
      "自叙伝",
      "この期間の記録はまだ" + "ありません。\n\n一文" + "からでも大丈夫。そこ" + "から物語が始まります" + "。",
      "",
      "〜",
      "の間に、私は",
      "この",
      "か月で、私は",
      "回の記録を残しました" + "。ひとつひとつが、歩" + "き続けた証です。",
      "もっとも多く見られた" + "感情は「",
      "」でした。これは評価" + "ではなく、私にとって" + "大切だったもののサイ" + "ンです。",
      "感情は一つにまとまら" + "ず、いくつかの糸が織" + "り重なっていたようで" + "す。",
      "心に残った一文は「",
      "…」でした。その瞬間" + "の自分へ、優しく返事" + "をするなら何と言うで" + "しょう？",
      "この期間で覚えておき" + "たい瞬間は何でしょう" + "？一文で名付けてみま" + "す。",
      "私の物語は完璧である" + "必要はありません。た" + "だ私のものであればい" + "い。静かに、非公開で" + "、正直に。")
  }

  function BioPhrasesOf(locale: Locale): BioPhrases {
    match locale
    case Ko => BioKo()
    case En => BioEn()
    case Ja => BioJa()
  }

  /** `makeAutobiography`: the autobiography in the locale's own wording. */
  function MakeAutobiography(logs: seq<DailyLog>, locale: Locale, clock: Clock, months: Option<JsNum>,
                             startISO: Option<string>, endISO: Option<string>, numText: real -> string): (r: Bio)
    ensures r.title == BioPhrasesOf(locale).title
    ensures var kept := Period(logs, clock, months, startISO, endISO);
      && (|kept| == 0 ==> r.body == BioPhrasesOf(locale).empty)
      && (|kept| > 0 ==>
            r.body == Body(AsReport(BioPhrasesOf(locale), Opening(BioPhrasesOf(locale), clock, locale, months, startISO, endISO, numText)),
                           locale, kept))
  {
    BioWith(BioPhrasesOf(locale), logs, locale, clock, months, startISO, endISO, numText)
  }
}
