/**
 * The monthly report of `mobile/src/ai/monthly.ts`: the diary entries whose
 * month key is the target month's, counted, with their most frequent label
 * and the first line of their longest entry, set in four paragraphs.
 *
 * Dates come from the `Clock`: an entry's time parses to a local calendar
 * date or to nothing (JavaScript's Invalid Date). The English month title
 * (`toLocaleDateString`) is a parameter.
 */
module Monthly {
  import opened Wrappers
  import opened Text
  import opened Seqs
  import opened Types

  // ---------------------------------------------------------------------------
  // Month keys
  // ---------------------------------------------------------------------------

  /** `monthKey`: `YYYY-MM`, the month zero-padded; an invalid date reads `NaN` for both parts. */
  function MonthKey(d: Option<Ymd>): (r: string)
    ensures d.None? ==> r == "NaN-NaN"
    ensures d.Some? ==> |r| == |IntToString(d.value.year)| + 3
    ensures d.Some? ==> r[..|r| - 3] == IntToString(d.value.year) && r[|r| - 3] == '-'
    ensures d.Some? ==> r[|r| - 2..] == Padded2(d.value.month)
  {
    match d
    case None => "NaN-NaN"
    case Some(x) => IntToString(x.year) + "-" + Padded2(x.month)
  }

  /** Both dates are invalid, or both are valid and in the same month of the same year. */
  predicate SameMonth(a: Option<Ymd>, b: Option<Ymd>) {
    (a.None? && b.None?) ||
    (a.Some? && b.Some? && a.value.year == b.value.year && a.value.month == b.value.month)
  }

  /** Two month keys are equal exactly when their dates are in the same month. */
  lemma MonthKeyInjective(a: Option<Ymd>, b: Option<Ymd>)
    ensures MonthKey(a) == MonthKey(b) <==> SameMonth(a, b)
  {
    var ka, kb := MonthKey(a), MonthKey(b);
    if ka == kb {
      if a.Some? && b.Some? {
        IntToStringInjective(a.value.year, b.value.year);
        assert Padded2(a.value.month) == Padded2(b.value.month);
      }
    }
  }

  /**
   * `formatMonthTitle`: the key split at `-` into year and month text, then
   * `${y}년 ${Number(m)}월` in Korean and `${y}年${Number(m)}月` in
   * Japanese; English goes through `enTitle`. A missing month part reads as
   * `NaN`, like `Number(undefined)`.
   */
  function FormatMonthTitle(key: string, locale: Locale, enTitle: (string, Option<string>) -> string): (r: string)
    ensures var parts := Split(key, '-');
      && (locale == Ko ==> StartsWith(r, parts[0] + "년 ") && EndsWith(r, "월"))
      && (locale == Ja ==> StartsWith(r, parts[0] + "年") && EndsWith(r, "月"))
      && (locale == En ==> r == enTitle(parts[0], if |parts| > 1 then Some(parts[1]) else None))
    ensures '-' !in key && locale == Ko ==> r == key + "년 NaN월"
    ensures '-' !in key && locale == Ja ==> r == key + "年NaN月"
  {
    var parts := Split(key, '-');
    var y := parts[0];
    var m := if |parts| > 1 then Some(parts[1]) else None;
    var mText := if m.Some? then NumberText(m.value) else "NaN";
    assert '-' !in key ==> parts == [key] by {
      if '-' !in key { SplitNoSeparator(key, '-'); }
    }
    match locale
    case En => enTitle(y, m)
    case Ja => y + "年" + mText + "月"
    case Ko => y + "년 " + mText + "월"
  }

  /** The key's two parts come back out of the split: the year and the padded month. */
  lemma SplitMonthKey(d: Ymd)
    requires d.year >= 0
    ensures Split(MonthKey(Some(d)), '-') == [IntToString(d.year), Padded2(d.month)]
  {
    var parts := [IntToString(d.year), Padded2(d.month)];
    assert Join(parts, "-") == MonthKey(Some(d));
    SplitOfJoin(parts, '-');
  }

  /** The title of a month key names the year and the month number without its padding. */
  lemma TitleOfMonth(d: Ymd, enTitle: (string, Option<string>) -> string)
    requires d.year >= 0
    ensures FormatMonthTitle(MonthKey(Some(d)), Ko, enTitle) == IntToString(d.year) + "년 " + IntToString(d.month) + "월"
    ensures FormatMonthTitle(MonthKey(Some(d)), Ja, enTitle) == IntToString(d.year) + "年" + IntToString(d.month) + "月"
    ensures FormatMonthTitle(MonthKey(Some(d)), En, enTitle) == enTitle(IntToString(d.year), Some(Padded2(d.month)))
  {
    SplitMonthKey(d);
    ReadPadded(d.month);
  }

  // ---------------------------------------------------------------------------
  // Filtering by month
  // ---------------------------------------------------------------------------

  /** The entries whose month key is the key of `month`, in order. */
  function InMonth(logs: seq<DailyLog>, month: Option<Ymd>, clock: Clock): (r: seq<DailyLog>)
    ensures |r| <= |logs|
  {
    Filter(logs, (l: DailyLog) => MonthKey(DateOf(clock, l.createdAtISO)) == MonthKey(month))
  }

  /**
   * The month filter keeps every entry dated in the target month and nothing
   * else. For an invalid target month that means the entries whose own date
   * is invalid, since both keys read `NaN-NaN`.
   */
  lemma InMonthKeeps(logs: seq<DailyLog>, month: Option<Ymd>, clock: Clock)
    ensures forall l :: multiset(InMonth(logs, month, clock))[l] ==
                        if SameMonth(DateOf(clock, l.createdAtISO), month) then multiset(logs)[l] else 0
  {
    FilterCounts(logs, (l: DailyLog) => MonthKey(DateOf(clock, l.createdAtISO)) == MonthKey(month));
    forall l: DailyLog
      ensures MonthKey(DateOf(clock, l.createdAtISO)) == MonthKey(month) <==> SameMonth(DateOf(clock, l.createdAtISO), month)
    {
      MonthKeyInjective(DateOf(clock, l.createdAtISO), month);
    }
  }

  // ---------------------------------------------------------------------------
  // The most frequent label
  // ---------------------------------------------------------------------------

  /** The labels of the entries, in order. */
  function Emotions(logs: seq<DailyLog>): (r: seq<Label>)
    ensures |r| == |logs| && forall i :: 0 <= i < |logs| ==> r[i] == logs[i].emotion
  {
    seq(|logs|, i requires 0 <= i < |logs| => logs[i].emotion)
  }

  /** How many entries carry the label. */
  function Count(logs: seq<DailyLog>, l: Label): nat {
    multiset(Emotions(logs))[l]
  }

  /** The position of the first entry with the label, or `|logs|` when there is none. */
  function FirstAt(logs: seq<DailyLog>, l: Label): (i: nat)
    ensures i <= |logs|
    ensures i < |logs| ==> logs[i].emotion == l
    ensures forall j :: 0 <= j < i ==> logs[j].emotion != l
    decreases |logs|
  {
    if |logs| == 0 then 0
    else if logs[0].emotion == l then 0
    else
      var i := FirstAt(logs[1..], l);
      assert forall j :: 1 <= j < |logs| ==> logs[j] == logs[1..][j - 1];
      1 + i
  }

  /** A label has entries exactly when it first appears somewhere. */
  lemma CountPositive(logs: seq<DailyLog>, l: Label)
    ensures Count(logs, l) > 0 <==> FirstAt(logs, l) < |logs|
  {
    var e := Emotions(logs);
    var i := FirstAt(logs, l);
    if i < |logs| {
      assert e[i] == l;
    } else {
      assert l !in e;
    }
  }

  /** The count of each entry's own label, entry by entry. */
  function LabelCounts(logs: seq<DailyLog>): (c: seq<int>)
    ensures |c| == |logs| && forall i :: 0 <= i < |logs| ==> c[i] == Count(logs, logs[i].emotion)
  {
    seq(|logs|, i requires 0 <= i < |logs| => Count(logs, logs[i].emotion))
  }

  /**
   * `topEmotion`: `null` for no entries; otherwise a label with the largest
   * count, and among equally frequent labels the one that appears first. The
   * counts object lists labels in order of first appearance and the sort is
   * stable, which is what the last clause says.
   */
  function TopEmotion(logs: seq<DailyLog>): (r: Option<Label>)
    ensures r.None? <==> |logs| == 0
    ensures r.Some? ==> Count(logs, r.value) > 0
    ensures r.Some? ==> forall l :: Count(logs, l) <= Count(logs, r.value)
    ensures r.Some? ==> forall l :: l != r.value && Count(logs, l) == Count(logs, r.value) ==>
      FirstAt(logs, r.value) < FirstAt(logs, l)
  {
    if |logs| == 0 then None
    else
      var b := BestIndex(LabelCounts(logs));
      TopFacts(logs, b);
      Some(logs[b].emotion)
  }

  /** The facts `BestIndex` gives about the entry-by-entry counts, restated label by label. */
  lemma TopFacts(logs: seq<DailyLog>, b: nat)
    requires b < |logs|
    requires forall k :: 0 <= k < |logs| ==> LabelCounts(logs)[k] <= LabelCounts(logs)[b]
    requires forall k :: 0 <= k < b ==> LabelCounts(logs)[k] < LabelCounts(logs)[b]
    ensures Count(logs, logs[b].emotion) > 0
    ensures forall l :: Count(logs, l) <= Count(logs, logs[b].emotion)
    ensures forall l :: l != logs[b].emotion && Count(logs, l) == Count(logs, logs[b].emotion) ==>
      FirstAt(logs, logs[b].emotion) < FirstAt(logs, l)
  {
    CountPositive(logs, logs[b].emotion);
    forall l: Label
      ensures Count(logs, l) <= Count(logs, logs[b].emotion)
      ensures l != logs[b].emotion && Count(logs, l) == Count(logs, logs[b].emotion) ==>
        FirstAt(logs, logs[b].emotion) < FirstAt(logs, l)
    {
      TopBeats(logs, b, l);
    }
  }

  /** One label against the entry `b`: no more frequent, and if as frequent, first seen later. */
  lemma TopBeats(logs: seq<DailyLog>, b: nat, l: Label)
    requires b < |logs|
    requires forall k :: 0 <= k < |logs| ==> LabelCounts(logs)[k] <= LabelCounts(logs)[b]
    requires forall k :: 0 <= k < b ==> LabelCounts(logs)[k] < LabelCounts(logs)[b]
    ensures Count(logs, l) <= Count(logs, logs[b].emotion)
    ensures l != logs[b].emotion && Count(logs, l) == Count(logs, logs[b].emotion) ==>
      FirstAt(logs, logs[b].emotion) < FirstAt(logs, l)
  {
    CountPositive(logs, l);
    var i := FirstAt(logs, l);
    if i < |logs| {
      assert LabelCounts(logs)[i] == Count(logs, l);
    }
  }

  // ---------------------------------------------------------------------------
  // The highlight line
  // ---------------------------------------------------------------------------

  /** An entry's length as JavaScript counts it, in UTF-16 code units. */
  function ContentLength(l: DailyLog): nat {
    |CodeUnits(l.content)|
  }

  /**
   * The entry a stable sort by descending length puts first: the first of
   * the longest.
   */
  function Longest(logs: seq<DailyLog>): (i: nat)
    requires |logs| > 0
    ensures i < |logs|
    ensures forall k :: 0 <= k < |logs| ==> ContentLength(logs[k]) <= ContentLength(logs[i])
    ensures forall k :: 0 <= k < i ==> ContentLength(logs[k]) < ContentLength(logs[i])
  {
    var lengths := seq(|logs|, k requires 0 <= k < |logs| => ContentLength(logs[k]) as int);
    assert forall k :: 0 <= k < |logs| ==> lengths[k] == ContentLength(logs[k]);
    BestIndex(lengths)
  }

  /**
   * `highlightLine`: `null` for no entries; otherwise the first non-blank
   * line of the longest entry, trimmed and cut to `width` characters (`""`
   * when that entry is blank).
   */
  function HighlightLine(logs: seq<DailyLog>, width: nat): (r: Option<string>)
    ensures r.None? <==> |logs| == 0
    ensures r.Some? ==> |r.value| <= width
    ensures r.Some? ==> StartsWith(PickFirstNonEmpty(Split(logs[Longest(logs)].content, '\n')), r.value)
    ensures r.Some? ==> var line := PickFirstNonEmpty(Split(logs[Longest(logs)].content, '\n'));
      |r.value| == if |line| < width then |line| else width
    ensures r.Some? && width > 0 ==> (r.value == "" <==> AllSpace(logs[Longest(logs)].content))
  {
    if |logs| == 0 then None
    else
      var content := logs[Longest(logs)].content;
      BlankContent(content);
      Some(Take(PickFirstNonEmpty(Split(content, '\n')), width))
  }

  // ---------------------------------------------------------------------------
  // makeMonthlyReport
  // ---------------------------------------------------------------------------

  datatype Report = Report(title: string, subtitle: string, body: string)

  /**
   * The fixed wording of the report in one locale: the title, the body for
   * an empty month, and the text around the entry count, the label name and
   * the highlight, with the line used when either is missing, and the
   * closing paragraph.
   */
  datatype MonthlyPhrases = MonthlyPhrases(
    title: string,
    empty: string,
    countOpen: string,
    countClose: string,
    moodOpen: string,
    moodClose: string,
    noMood: string,
    lineOpen: string,
    lineClose: string,
    noLine: string,
    closing: string)

  /** The four paragraphs of a report on a non-empty month. */
  function Paragraphs(p: MonthlyPhrases, locale: Locale, total: nat, top: Option<Label>, sample: Option<string>): seq<string> {
    var topLabel := if top.Some? then LabelName(locale, top.value) else "";
    [p.countOpen + IntToString(total) + p.countClose,
     if topLabel != "" then p.moodOpen + topLabel + p.moodClose else p.noMood,
     if sample.Some? && sample.value != "" then p.lineOpen + sample.value + p.lineClose else p.noLine,
     p.closing]
  }

  /**
   * The body of a report on the entries `kept`: its paragraphs joined by
   * blank lines, with the highlight cut to 80 characters.
   */
  function Body(p: MonthlyPhrases, locale: Locale, kept: seq<DailyLog>): string {
    Join(Paragraphs(p, locale, |kept|, TopEmotion(kept), HighlightLine(kept, 80)), "\n\n")
  }

  /**
   * The report in the wording `p`. With no entry in the month the body is the
   * fixed empty-month text; otherwise it is the four paragraphs on the
   * month's entries joined by blank lines: how many there are, their most
   * frequent label, the highlight of the longest one cut to 80 characters,
   * and the closing paragraph.
   */
  function ReportWith(p: MonthlyPhrases, logs: seq<DailyLog>, month: Option<Ymd>, locale: Locale, clock: Clock,
                      enTitle: (string, Option<string>) -> string): (r: Report)
    ensures r.title == p.title
    ensures r.subtitle == FormatMonthTitle(MonthKey(month), locale, enTitle)
    ensures |InMonth(logs, month, clock)| == 0 ==> r.body == p.empty
    ensures |InMonth(logs, month, clock)| > 0 ==>
      StartsWith(r.body, p.countOpen + IntToString(|InMonth(logs, month, clock)|) + p.countClose)
      && EndsWith(r.body, p.closing)
    ensures var kept := InMonth(logs, month, clock);
      |kept| > 0 ==> r.body == Body(p, locale, kept)
  {
    var key := MonthKey(month);
    var kept := InMonth(logs, month, clock);
    var subtitle := FormatMonthTitle(key, locale, enTitle);
    if |kept| == 0 then Report(p.title, subtitle, p.empty)
    else
      var paragraphs := Paragraphs(p, locale, |kept|, TopEmotion(kept), HighlightLine(kept, 80));
      JoinEnds(paragraphs, "\n\n");
      Report(p.title, subtitle, Join(paragraphs, "\n\n"))
  }

  /**
   * The label paragraph names the most frequent label whenever there is one,
   * and falls back to the fixed text otherwise; the highlight paragraph
   * quotes the highlight whenever it is not empty.
   */
  lemma ParagraphsQuote(p: MonthlyPhrases, locale: Locale, total: nat, top: Option<Label>, sample: Option<string>)
    ensures |Paragraphs(p, locale, total, top, sample)| == 4
    ensures top.Some? ==> Paragraphs(p, locale, total, top, sample)[1] == p.moodOpen + LabelName(locale, top.value) + p.moodClose
    ensures top.None? ==> Paragraphs(p, locale, total, top, sample)[1] == p.noMood
    ensures sample.Some? && sample.value != "" ==> Paragraphs(p, locale, total, top, sample)[2] == p.lineOpen + sample.value + p.lineClose
    ensures (sample.None? || sample.value == "") ==> Paragraphs(p, locale, total, top, sample)[2] == p.noLine
  {
    if top.Some? {
      LabelNameNotEmpty(locale, top.value);
    }
  }

  /** Every label has a name in every locale. */
  lemma LabelNameNotEmpty(locale: Locale, l: Label)
    ensures LabelName(locale, l) != ""
  {
    assert |LabelName(locale, l)| >= 2;
  }

  function MonthlyKo(): MonthlyPhrases {
    MonthlyPhrases(
      "이번 달, 나의 이야기",
      "이번 달의 기록이 " + "아직 없어요.\n\n" + "작은 한 문장부터 " + "시작해도 괜찮아요. " + "오늘의 나를 한 줄로 " + "남겨볼까요?",
      "이번 달 나는 ",
      "번의 기록으로 " + "나를 남겼어요. " + "기록은 “잘했다/못했다”를 " + "가르는 것이 아니라, " + "내 삶을 있는 그대로 " + "바라보는 창이 " + "되어줍니다.",
      "기록을 종합해보면, " + "이번 달에는 ‘",
      "’의 흐름이 자주 " + "보였어요. 그 감정이 " + "생길 때마다 나는 " + "무엇을 지키고 " + "싶었는지, 무엇이 " + "필요했는지 " + "떠올려보면 좋아요.",
      "이번 달의 감정은 " + "한 가지로 정리하기보다, " + "여러 결이 함께 " + "있었던 것으로 보여요.",
      "특히 기억에 남는 " + "한 줄은 “",
      "…”였어요. 이 문장을 쓴 " + "‘그때의 나’에게 " + "지금의 내가 한마디 " + "건넨다면, 어떤 말이 " + "가장 다정할까요?",
      "이번 달의 나는 " + "어떤 순간을 가장 " + "또렷하게 기억하나요? " + "그 장면을 한 문장으로 " + "적어볼까요?",
      "다음 달을 위한 " + "작은 방향을 하나만 " + "고른다면, ‘늘리기’보다 " + "‘덜어내기’에서 " + "시작해도 좋아요. " + "내게 편안함을 주는 " + "한 가지를 찾아, " + "일주일에 한 번만이라도 " + "해보는 건 어떨까요?")
  }

  function MonthlyEn(): MonthlyPhrases {
    MonthlyPhrases(
      "This month, " + "my story",
      "You don’t have " + "any logs this " + "month yet.\n\n" + "It’s okay to " + "start with one " + "small sentence. " + "Want to write " + "one line about " + "today?",
      "This month, " + "I left ",
      " logs for " + "myself. Logging " + "isn’t about " + "judging " + "“good/bad”; " + "it’s a window " + "to see my life " + "as it is.",
      "Across your " + "logs, the mood “",
      "” appeared " + "often this " + "month. When it " + "shows up, what " + "were you trying " + "to protect, and " + "what did you " + "need?",
      "This month’s " + "feelings may " + "not fit into a " + "single label—" + "more like " + "multiple " + "textures " + "together.",
      "One line that " + "stood out was “",
      "…”. If you " + "could say one " + "kind sentence " + "to the “you” " + "who wrote that, " + "what would it " + "be?",
      "What moment do " + "you remember " + "most clearly " + "this month? " + "Want to write " + "it in one " + "sentence?",
      "For next month, " + "you can start " + "with ‘less’ " + "rather than " + "‘more’. Find " + "one thing that " + "brings you " + "ease—and try " + "it just once a " + "week.")
  }

  function MonthlyJa(): MonthlyPhrases {
    MonthlyPhrases(
      "今月、私の物語",
      "今月の記録は" + "まだありません。\n\n" + "一文からでも大丈夫。" + "今日の自分を一行で" + "残してみませんか？",
      "今月、私は",
      "回の記録を残しました。" + "記録は「良い/悪い」を" + "決めるものではなく、" + "人生をそのまま" + "見つめる窓になります。",
      "記録をまとめると、" + "今月は「",
      "」の流れがよく" + "見られました。" + "その感情が出るとき、" + "何を守りたくて、" + "何が必要だったのでしょう？",
      "今月の感情は" + "一つにまとめるより、" + "いくつかの質感が" + "一緒にあったようです。",
      "特に印象的だった" + "一文は「",
      "…」でした。" + "そのときの自分に、" + "今の自分が一言" + "かけるなら何が" + "いちばん優しいでしょう？",
      "今月いちばん" + "はっきり覚えている" + "瞬間はいつですか？" + "一文で書いて" + "みませんか？",
      "来月の小さな方向を" + "一つ選ぶなら、" + "「増やす」より" + "「減らす」から" + "始めてもいいです。" + "心が楽になる一つを" + "見つけ、週に一度" + "だけでも試して" + "みませんか？")
  }

  function MonthlyPhrasesOf(locale: Locale): MonthlyPhrases {
    match locale
    case Ko => MonthlyKo()
    case En => MonthlyEn()
    case Ja => MonthlyJa()
  }

  /** `makeMonthlyReport`: the report in the locale's own wording. */
  function MakeMonthlyReport(logs: seq<DailyLog>, month: Option<Ymd>, locale: Locale, clock: Clock,
                             enTitle: (string, Option<string>) -> string): (r: Report)
    ensures r.title == MonthlyPhrasesOf(locale).title
    ensures r.subtitle == FormatMonthTitle(MonthKey(month), locale, enTitle)
    ensures var kept := InMonth(logs, month, clock);
      && (|kept| == 0 ==> r.body == MonthlyPhrasesOf(locale).empty)
      && (|kept| > 0 ==>
            r.body == Body(MonthlyPhrasesOf(locale), locale, kept))
  {
    ReportWith(MonthlyPhrasesOf(locale), logs, month, locale, clock, enTitle)
  }
}
