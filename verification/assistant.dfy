/**
 * The offline mentor reply of `mobile/src/ai/assistant.ts`: a fixed-shape
 * message built from the user's text, the newest diary entry and a variant
 * chosen by a 32-bit FNV-1a hash of the day and the text.
 *
 * The clock readings (`new Date().toISOString()` and `Date.now()`) are
 * parameters.
 */
module Assistant {
  import opened Wrappers
  import opened Text
  import opened Seqs
  import opened Types

  // ---------------------------------------------------------------------------
  // hashString: FNV-1a over UTF-16 code units
  // ---------------------------------------------------------------------------

  const OffsetBasis: bv32 := 2166136261
  const FnvPrime: bv32 := 16777619

  /** One FNV-1a round: xor in the code unit, multiply modulo 2^32 (`Math.imul`). */
  function FnvStep(h: bv32, unit: int): bv32
    requires 0 <= unit < 0x1_0000
  {
    (h ^ (unit as bv32)) * FnvPrime
  }

  /** The reference definition: the rounds applied left to right from the offset basis. */
  function Fnv(units: seq<int>): bv32
    requires forall k :: 0 <= k < |units| ==> 0 <= units[k] < 0x1_0000
  {
    if |units| == 0 then OffsetBasis
    else FnvStep(Fnv(units[..|units| - 1]), units[|units| - 1])
  }

  /** `hashString`: the loop over `charCodeAt`, read back unsigned (`>>> 0`). */
  method HashString(s: string) returns (h: nat)
    ensures h == Fnv(CodeUnits(s)) as nat
    ensures h < 0x1_0000_0000
  {
    var units := CodeUnits(s);
    var acc: bv32 := OffsetBasis;
    var i := 0;
    while i < |units|
      invariant 0 <= i <= |units|
      invariant acc == Fnv(units[..i])
    {
      FnvSnoc(units, i);
      acc := FnvStep(acc, units[i]);
      i := i + 1;
    }
    assert units[..|units|] == units;
    h := acc as nat;
  }

  /** One more code unit is one more round. */
  lemma FnvSnoc(units: seq<int>, i: nat)
    requires forall k :: 0 <= k < |units| ==> 0 <= units[k] < 0x1_0000
    requires i < |units|
    ensures Fnv(units[..i + 1]) == FnvStep(Fnv(units[..i]), units[i])
  {
    assert units[..i + 1][..i] == units[..i];
  }

  /** The published FNV-1a test vector: the hash of "a" is 0xe40c292c. */
  lemma HashOfA()
    ensures Fnv(CodeUnits("a")) == 0xe40c292c
  {
    var units := CodeUnits("a");
    assert units == [97];
    assert units[..0] == [];
    assert Fnv(units) == FnvStep(OffsetBasis, 97);
    var x: bv32 := 0x811c9dc5 ^ 0x61;
    assert x == 0x811c9da4;
    assert x * 0x01000193 == 0xe40c292c;
  }

  /** The suggestion variant: the seed modulo 3. */
  function VariantOf(seed: nat): (r: nat)
    ensures r < 3
    ensures (seed - r) % 3 == 0
  {
    seed % 3
  }

  /** The string hashed for the seed: the date part of the ISO time, a bar, the trimmed text. */
  function SeedText(nowISO: string, userText: string): string {
    Take(nowISO, 10) + "|" + Trim(userText)
  }

  /** The same day and the same trimmed text give the same seed text, hence the same variant. */
  lemma SeedDependsOnDayAndText(iso1: string, iso2: string, t1: string, t2: string)
    requires Take(iso1, 10) == Take(iso2, 10) && Trim(t1) == Trim(t2)
    ensures SeedText(iso1, t1) == SeedText(iso2, t2)
  {
  }

  // ---------------------------------------------------------------------------
  // pickKeywordsKo
  // ---------------------------------------------------------------------------

  const Stopwords: set<string> := {
    "지금", "현재", "정말", "그냥", "내가", "나는", "내", "것", "수", "좀", "더", "제발", "해줘",
    "해주세요", "부탁", "가능", "무엇", "어떻게", "왜", "어떤", "그리고", "또", "때문", "관련", "정리", "분석"
  }

  /** A character of the split pattern `[\s,.;:!?()"'“”‘’/\\]`. */
  predicate IsSeparator(c: char) {
    IsSpace(c) || c in {',', '.', ';', ':', '!', '?', '(', ')', '"', '\'', '“', '”', '‘', '’', '/', '\\'}
  }

  /** A word worth keeping: 2 to 12 UTF-16 units long and not a stopword. */
  predicate Keep(w: string) {
    2 <= |CodeUnits(w)| <= 12 && w !in Stopwords
  }

  /** The kept words of `s`, in order. */
  function KeepAll(pieces: seq<string>): (r: seq<string>)
    ensures |r| <= |pieces|
    ensures forall k :: 0 <= k < |r| ==> Keep(r[k]) && r[k] in pieces
    ensures forall k :: 0 <= k < |pieces| && Keep(pieces[k]) ==> pieces[k] in r
    decreases |pieces|
  {
    if |pieces| == 0 then []
    else
      var rest := KeepAll(pieces[1..]);
      assert forall k :: 1 <= k < |pieces| ==> pieces[k] == pieces[1..][k - 1];
      if Keep(pieces[0]) then [pieces[0]] + rest else rest
  }

  /**
   * The candidate words. Splitting at single separator characters instead
   * of runs of them only adds empty pieces, which the length filter drops;
   * the pieces hold no whitespace, so the newline replacement and the
   * per-piece trim change nothing.
   */
  function Words(text: string): (r: seq<string>)
    ensures forall k :: 0 <= k < |r| ==> Keep(r[k])
    ensures forall k :: 0 <= k < |r| ==> forall j :: 0 <= j < |r[k]| ==> !IsSeparator(r[k][j])
    ensures forall w :: w in SplitWhere(text, IsSeparator) && Keep(w) ==> w in r
  {
    var pieces := SplitWhere(text, IsSeparator);
    KeepAll(pieces)
  }

  /**
   * The words of a text are exactly its split pieces that are worth
   * keeping; the pieces are the runs between separator characters.
   */
  lemma WordsOfText(text: string)
    ensures var pieces, r := SplitWhere(text, IsSeparator), Words(text);
      && (forall k :: 0 <= k < |r| ==> r[k] in pieces && Keep(r[k]))
      && (forall k :: 0 <= k < |pieces| && Keep(pieces[k]) ==> pieces[k] in r)
      && |pieces| == |Separators(text, IsSeparator)| + 1
      && Interleave(pieces, Separators(text, IsSeparator)) == text
  {
    SplitWhereRoundTrip(text, IsSeparator);
  }

  /** At least one keyword is always allowed: the loop pushes before it checks the bound. */
  function Bound(max: int): (r: nat)
    ensures r >= 1 && r >= max
    ensures r == 1 || r == max
  {
    if max < 1 then 1 else max
  }

  /**
   * `pickKeywordsKo`: the distinct candidate words in order of first
   * appearance, stopping once `max` are collected.
   */
  method PickKeywordsKo(text: string, max: int) returns (uniq: seq<string>)
    ensures uniq == FirstDistinct(Words(text), Bound(max))
  {
    uniq := CollectDistinct(Words(text), Bound(max));
  }

  /** The `uniq` loop: push each word not seen yet, stop once `m` are collected. */
  method CollectDistinct(words: seq<string>, m: nat) returns (uniq: seq<string>)
    requires m >= 1
    ensures uniq == FirstDistinct(words, m)
  {
    uniq := [];
    var i := 0;
    while i < |words|
      invariant 0 <= i <= |words|
      invariant uniq == Dedup(words[..i])
      invariant |uniq| < m
    {
      DedupSnoc(words, i);
      if words[i] !in uniq {
        uniq := uniq + [words[i]];
      }
      i := i + 1;
      if |uniq| >= m {
        EnoughCollected(words, i, m);
        return;
      }
    }
    EnoughCollected(words, i, m);
  }

  /** Once `m` distinct words are collected, or the words run out, the collection is the answer. */
  lemma EnoughCollected(words: seq<string>, i: nat, m: nat)
    requires i <= |words|
    requires |Dedup(words[..i])| == m || (i == |words| && |Dedup(words[..i])| < m)
    ensures Dedup(words[..i]) == FirstDistinct(words, m)
  {
    DedupPrefix(words, i);
    if i == |words| {
      assert words[..i] == words;
    }
  }

  /** The first `n` distinct elements of `s`, in order of first appearance. */
  function FirstDistinct(s: seq<string>, n: nat): (r: seq<string>)
    ensures NoDuplicates(r)
    ensures |r| <= n
    ensures forall k :: 0 <= k < |r| ==> r[k] in s
    ensures |r| < n ==> forall k :: 0 <= k < |s| ==> s[k] in r
    ensures |r| == if |Dedup(s)| < n then |Dedup(s)| else n
    ensures r == Dedup(s)[..|r|]
  {
    var d := Dedup(s);
    d[..if |d| < n then |d| else n]
  }

  /** The picked keywords are distinct, at most `max` (at least one allowed), and each a kept word of the text. */
  lemma PickedKeywordsWellFormed(text: string, max: int)
    ensures var r := FirstDistinct(Words(text), Bound(max));
      NoDuplicates(r) && |r| <= Bound(max)
      && forall k :: 0 <= k < |r| ==> Keep(r[k]) && forall j :: 0 <= j < |r[k]| ==> !IsSeparator(r[k][j])
  {
    var w := Words(text);
    var r := FirstDistinct(w, Bound(max));
    forall k | 0 <= k < |r|
      ensures Keep(r[k]) && forall j :: 0 <= j < |r[k]| ==> !IsSeparator(r[k][j])
    {
      var i :| 0 <= i < |w| && w[i] == r[k];
    }
  }

  // ---------------------------------------------------------------------------
  // The newest entry's hint
  // ---------------------------------------------------------------------------

  datatype LogHint = LogHint(emotion: Label, firstLine: string)

  /** `lastLogHint`: the newest entry's label and its first non-blank line, cut to 60 characters. */
  function LastLogHint(logs: seq<DailyLog>): (r: Option<LogHint>)
    ensures r.None? <==> |logs| == 0
    ensures r.Some? ==> r.value.emotion == logs[0].emotion
    ensures r.Some? ==> |r.value.firstLine| <= 60
    ensures r.Some? ==> var line := PickFirstNonEmpty(Split(logs[0].content, '\n'));
      |r.value.firstLine| == if |line| < 60 then |line| else 60
    ensures r.Some? ==> StartsWith(PickFirstNonEmpty(Split(logs[0].content, '\n')), r.value.firstLine)
    ensures r.Some? ==> (r.value.firstLine == "" <==> AllSpace(logs[0].content))
  {
    if |logs| == 0 then None
    else
      var content := logs[0].content;
      BlankContent(content);
      Some(LogHint(logs[0].emotion, Take(PickFirstNonEmpty(Split(content, '\n')), 60)))
  }

  // ---------------------------------------------------------------------------
  // makeAssistantReply
  // ---------------------------------------------------------------------------

  /** Why the server mentor was skipped. */
  datatype OfflineReason = DailyLimit | Cooldown | MessageTooLong | NetworkError

  /** The position of a reason in a locale's list of skip notes. */
  function ReasonIndex(reason: OfflineReason): (i: nat)
    ensures i < 4
  {
    match reason
    case DailyLimit => 0
    case Cooldown => 1
    case MessageTooLong => 2
    case NetworkError => 3
  }

  /**
   * The fixed wording of the reply in one locale: the header, the four skip
   * notes, the topic prefix and the empty-topic line, the prompt, the three
   * suggestion variants, the quotes around the recent entry, and the closing
   * question.
   *
   * The tables below spell the longer phrases as concatenations of short
   * string literals: the text is the same, and the verifier's cost of a
   * literal grows quickly with its length.
   */
  datatype Phrases = Phrases(
    header: string,
    reasons: seq<string>,
    topicPrefix: string,
    emptyTopic: string,
    prompt: string,
    variants: seq<seq<string>>,
    refOpen: string,
    refClose: string,
    question: string)

  /** Every fixed paragraph is non-empty, so `filter(Boolean)` never drops one. */
  predicate WellFormed(p: Phrases) {
    |p.header| > 0 && |p.reasons| == 4 && (forall k :: 0 <= k < 4 ==> |p.reasons[k]| > 0)
    && |p.topicPrefix| > 0 && |p.emptyTopic| > 0 && |p.prompt| > 0 && |p.question| > 0 && |p.refOpen| > 0
    && Unbroken(p.variants)
  }

  /** Three lines, the first not empty, none holding a line break. */
  predicate Unbroken3(lines: seq<string>) {
    |lines| == 3 && |lines[0]| > 0 && '\n' !in lines[0] && '\n' !in lines[1] && '\n' !in lines[2]
  }

  /** Three suggestion variants of three unbroken lines each. */
  predicate Unbroken(variants: seq<seq<string>>) {
    |variants| == 3 && forall v :: 0 <= v < 3 ==> Unbroken3(variants[v])
  }

  // The suggestion lines of the Korean wording, one function each.

  function KoSuggestion00(): (r: string)
    ensures |r| > 0 && '\n' !in r
  {
    "- 먼저 상황을 한 " + "문장으로 요약해볼까요?"
  }

  function KoSuggestion01(): (r: string)
    ensures |r| > 0 && '\n' !in r
  {
    "- 지금 당장 할 수 " + "있는 ‘가장 작은 다음 " + "행동’ 1개를 정해요."
  }

  function KoSuggestion02(): (r: string)
    ensures |r| > 0 && '\n' !in r
  {
    "- 원하면 " + "선택지(2~3개) 중 " + "우선순위를 같이 정리해요."
  }

  function KoSuggestion10(): (r: string)
    ensures |r| > 0 && '\n' !in r
  {
    "- 핵심 목표가 " + "뭐였는지(오늘/이번주)만 " + "딱 정해요."
  }

  function KoSuggestion11(): (r: string)
    ensures |r| > 0 && '\n' !in r
  {
    "- 방해 요인이 뭐였는지 " + "1~2개만 적어봐요."
  }

  function KoSuggestion12(): (r: string)
    ensures |r| > 0 && '\n' !in r
  {
    "- 그 방해를 줄이는 " + "행동을 10분짜리로 " + "쪼개요."
  }

  function KoSuggestion20(): (r: string)
    ensures |r| > 0 && '\n' !in r
  {
    "- 지금 " + "마음/에너지(0~10)가 " + "어느 정도인지부터 잡아요."
  }

  function KoSuggestion21(): (r: string)
    ensures |r| > 0 && '\n' !in r
  {
    "- 에너지가 낮으면 " + "‘유지/회복’ 플랜으로, " + "높으면 ‘전진’ 플랜으로 " + "가요."
  }

  function KoSuggestion22(): (r: string)
    ensures |r| > 0 && '\n' !in r
  {
    "- 다음 질문 하나만 " + "답해줘도 돼요: “지금 " + "제일 걱정되는 건 뭐야?”"
  }

  /** The three suggestion variants of the Korean wording. */
  function KoVariants(): (t: seq<seq<string>>)
    ensures Unbroken(t)
  {
    [[KoSuggestion00(), KoSuggestion01(), KoSuggestion02()],
     [KoSuggestion10(), KoSuggestion11(), KoSuggestion12()],
     [KoSuggestion20(), KoSuggestion21(), KoSuggestion22()]]
  }



  function KoPhrases(): (p: Phrases)
    ensures WellFormed(p)
  {
    Phrases(
      "오프라인 모드",
      ["(서버 AI: " + "일일 제한으로 생략)",
       "(서버 AI: " + "쿨다운으로 생략)",
       "(서버 AI: " + "메시지가 길어 생략)",
       "(서버 AI: " + "네트워크로 생략)"],
      "주제: ",
      "주제: (비어 있음)",
      "몇 가지 진행 방향을 " + "제안할게요:",
      KoVariants(),
      "최근 기록: “",
      "…”",
      "확인: 이 대화에서 얻고 " + "싶은 결과가 뭐예요?")
  }

  // The suggestion lines of the English wording, one function each.

  function EnSuggestion00(): (r: string)
    ensures |r| > 0 && '\n' !in r
  {
    "- Let’s " + "summarize the " + "situation in " + "one sentence."
  }

  function EnSuggestion01(): (r: string)
    ensures |r| > 0 && '\n' !in r
  {
    "- Pick the " + "smallest next " + "action you " + "can do today."
  }

  function EnSuggestion02(): (r: string)
    ensures |r| > 0 && '\n' !in r
  {
    "- If you have " + "options, we " + "can prioritize " + "them together."
  }

  function EnSuggestion10(): (r: string)
    ensures |r| > 0 && '\n' !in r
  {
    "- Clarify " + "your goal for " + "today/this " + "week."
  }

  function EnSuggestion11(): (r: string)
    ensures |r| > 0 && '\n' !in r
  {
    "- Name 1–2 " + "blockers."
  }

  function EnSuggestion12(): (r: string)
    ensures |r| > 0 && '\n' !in r
  {
    "- Turn the " + "next step " + "into a " + "10\U{2011}minute " + "task."
  }

  function EnSuggestion20(): (r: string)
    ensures |r| > 0 && '\n' !in r
  {
    "- Rate your " + "energy (0–10)."
  }

  function EnSuggestion21(): (r: string)
    ensures |r| > 0 && '\n' !in r
  {
    "- Low energy: " + "stabilize/restore; " + "high energy: " + "advance."
  }

  function EnSuggestion22(): (r: string)
    ensures |r| > 0 && '\n' !in r
  {
    "- What’s the " + "single biggest " + "concern right " + "now?"
  }

  /** The three suggestion variants of the English wording. */
  function EnVariants(): (t: seq<seq<string>>)
    ensures Unbroken(t)
  {
    [[EnSuggestion00(), EnSuggestion01(), EnSuggestion02()],
     [EnSuggestion10(), EnSuggestion11(), EnSuggestion12()],
     [EnSuggestion20(), EnSuggestion21(), EnSuggestion22()]]
  }



  function EnPhrases(): (p: Phrases)
    ensures WellFormed(p)
  {
    Phrases(
      "Offline mode",
      ["(Server AI " + "skipped: " + "daily limit)",
       "(Server AI " + "skipped: " + "cooldown)",
       "(Server AI " + "skipped: " + "message too " + "long)",
       "(Server AI " + "skipped: " + "network error)"],
      "Topic: ",
      "Topic: (empty)",
      "Here are a " + "few ways we " + "can approach " + "this:",
      EnVariants(),
      "Recent log: \"",
      "…\"",
      "Quick " + "question: " + "what outcome " + "do you want " + "from this " + "conversation?")
  }

  // The suggestion lines of the Japanese wording, one function each.

  function JaSuggestion00(): (r: string)
    ensures |r| > 0 && '\n' !in r
  {
    "- 状況を一文で" + "要約してみましょう。"
  }

  function JaSuggestion01(): (r: string)
    ensures |r| > 0 && '\n' !in r
  {
    "- 今日できる最小の" + "次の行動を1つ決めます。"
  }

  function JaSuggestion02(): (r: string)
    ensures |r| > 0 && '\n' !in r
  {
    "- 選択肢があるなら" + "優先順位を一緒に整理します。"
  }

  function JaSuggestion10(): (r: string)
    ensures |r| > 0 && '\n' !in r
  {
    "- 今日/今週の目標を" + "1つに絞ります。"
  }

  function JaSuggestion11(): (r: string)
    ensures |r| > 0 && '\n' !in r
  {
    "- 障害を1〜2個挙げます。"
  }

  function JaSuggestion12(): (r: string)
    ensures |r| > 0 && '\n' !in r
  {
    "- 次の一歩を" + "10分タスクに分解します。"
  }

  function JaSuggestion20(): (r: string)
    ensures |r| > 0 && '\n' !in r
  {
    "- エネルギー(0〜10)を" + "教えてください。"
  }

  function JaSuggestion21(): (r: string)
    ensures |r| > 0 && '\n' !in r
  {
    "- 低い:維持/回復、" + "高い:前進。"
  }

  function JaSuggestion22(): (r: string)
    ensures |r| > 0 && '\n' !in r
  {
    "- いま一番の不安は何ですか？"
  }

  /** The three suggestion variants of the Japanese wording. */
  function JaVariants(): (t: seq<seq<string>>)
    ensures Unbroken(t)
  {
    [[JaSuggestion00(), JaSuggestion01(), JaSuggestion02()],
     [JaSuggestion10(), JaSuggestion11(), JaSuggestion12()],
     [JaSuggestion20(), JaSuggestion21(), JaSuggestion22()]]
  }



  function JaPhrases(): (p: Phrases)
    ensures WellFormed(p)
  {
    Phrases(
      "オフラインモード",
      ["（サーバーAI: " + "本日の上限でスキップ）",
       "（サーバーAI: " + "クールダウンでスキップ）",
       "（サーバーAI: " + "文章が長すぎてスキップ）",
       "（サーバーAI: " + "ネットワークでスキップ）"],
      "テーマ: ",
      "テーマ:（空）",
      "いくつか進め方を" + "提案します：",
      JaVariants(),
      "最近の記録: 「",
      "…」",
      "確認: この会話で" + "得たい結果は何ですか？")
  }

  function PhrasesOf(locale: Locale): (p: Phrases)
    ensures WellFormed(p)
  {
    match locale
    case Ko => KoPhrases()
    case En => EnPhrases()
    case Ja => JaPhrases()
  }

  /** The topic line: at most the first 160 characters of the trimmed text, `…` when there was more. */
  function Topic(p: Phrases, trimmed: string): (r: string)
    requires WellFormed(p)
    ensures r != ""
    ensures trimmed == "" ==> r == p.emptyTopic
    ensures trimmed != "" ==> StartsWith(r, p.topicPrefix)
    ensures trimmed != "" && |trimmed| <= 160 ==> r == p.topicPrefix + trimmed
    ensures trimmed != "" && |trimmed| > 160 ==>
      |r| == |p.topicPrefix| + 161 && StartsWith(trimmed, r[|p.topicPrefix|..|r| - 1]) && EndsWith(r, "…")
  {
    if trimmed == "" then p.emptyTopic
    else
      var r := p.topicPrefix + Take(trimmed, 160) + (if |trimmed| > 160 then "…" else "");
      assert r[..|p.topicPrefix|] == p.topicPrefix;
      assert |trimmed| > 160 ==> r[|p.topicPrefix|..|r| - 1] == Take(trimmed, 160);
      r
  }

  /** The reference to the newest entry: its first line, cut off with `…`, in the locale's quotes. */
  function RefLine(p: Phrases, hint: LogHint): (r: string)
    requires WellFormed(p)
    ensures |r| > 0
    ensures StartsWith(r, p.refOpen + hint.firstLine) && EndsWith(r, p.refClose)
    ensures |r| == |p.refOpen| + |hint.firstLine| + |p.refClose|
  {
    var r := p.refOpen + hint.firstLine + p.refClose;
    assert r[..|p.refOpen + hint.firstLine|] == p.refOpen + hint.firstLine;
    assert r[|r| - |p.refClose|..] == p.refClose;
    r
  }

  const KeywordPrefix := "키워드: "

  /** Every keyword is free of commas and of surrounding whitespace. */
  predicate Listable(keywords: seq<string>) {
    forall k :: 0 <= k < |keywords| ==> ',' !in keywords[k] && IsTrimmed(keywords[k])
  }

  /**
   * The keyword line of a Korean reply: the prefix, then the keywords
   * separated by `, `. Keywords free of commas and of surrounding whitespace
   * read back from it: split at the commas and trim each piece.
   */
  function KeywordLine(keywords: seq<string>): (r: string)
    ensures |r| > 0 && StartsWith(r, KeywordPrefix)
    ensures |keywords| >= 1 && Listable(keywords) ==>
      var parts := Split(r[|KeywordPrefix|..], ',');
      |parts| == |keywords| && forall k :: 0 <= k < |parts| ==> Trim(parts[k]) == keywords[k]
  {
    var r := KeywordPrefix + Join(keywords, ", ");
    assert r[..|KeywordPrefix|] == KeywordPrefix;
    assert r[|KeywordPrefix|..] == Join(keywords, ", ");
    if |keywords| >= 1 && Listable(keywords) then
      KeywordsReadBack(keywords);
      r
    else r
  }

  /** Each keyword after the first, with the space that follows a comma in front. */
  function Spaced(keywords: seq<string>): (r: seq<string>)
    ensures |r| == |keywords|
    ensures forall k :: 0 <= k < |r| ==> r[k] == " " + keywords[k]
  {
    seq(|keywords|, k requires 0 <= k < |keywords| => " " + keywords[k])
  }

  /** A space before a `, `-joined list is the spaced keywords joined by `,`. */
  lemma {:induction false} JoinSpaced(keywords: seq<string>)
    requires |keywords| >= 1
    ensures " " + Join(keywords, ", ") == Join(Spaced(keywords), ",")
    decreases |keywords|
  {
    if |keywords| > 1 {
      JoinSpaced(keywords[1..]);
      assert Spaced(keywords)[1..] == Spaced(keywords[1..]);
    }
  }

  /** The pieces between the commas of the `, `-joined keywords: the first keyword, then the others after a space. */
  function CommaPieces(keywords: seq<string>): (r: seq<string>)
    requires |keywords| >= 1
    ensures |r| == |keywords| && r[0] == keywords[0]
    ensures forall k :: 1 <= k < |r| ==> r[k] == " " + keywords[k]
  {
    [keywords[0]] + Spaced(keywords[1..])
  }

  lemma Regroup4(a: string, b: string, c: string, d: string)
    ensures a + b + (c + d) == a + (b + c) + d
  {
  }

  /** The `, `-joined keywords are their comma pieces joined by `,`. */
  lemma JoinCommaPieces(keywords: seq<string>)
    requires |keywords| >= 1
    ensures Join(keywords, ", ") == Join(CommaPieces(keywords), [','])
  {
    var pieces := CommaPieces(keywords);
    if |keywords| > 1 {
      var rest := Join(keywords[1..], ", ");
      JoinSpaced(keywords[1..]);
      assert pieces[1..] == Spaced(keywords[1..]);
      assert Join(pieces, [',']) == pieces[0] + [','] + Join(pieces[1..], [',']);
      assert Join(keywords, ", ") == keywords[0] + ", " + rest;
      assert [','] + " " == ", ";
      Regroup4(keywords[0], [','], " ", rest);
    }
  }

  /** A comma piece of listable keywords holds no comma and trims to its keyword. */
  lemma CommaPieceTrims(keywords: seq<string>, k: nat)
    requires |keywords| >= 1 && Listable(keywords) && k < |keywords|
    ensures ',' !in CommaPieces(keywords)[k] && Trim(CommaPieces(keywords)[k]) == keywords[k]
  {
    if k == 0 {
      TrimOfTrimmed(keywords[0]);
    } else {
      assert IsSpace(' ');
      TrimOfPadded(" ", keywords[k], "");
      assert " " + keywords[k] + "" == CommaPieces(keywords)[k];
    }
  }

  /** Splitting the `, `-joined keywords at the commas and trimming each piece gives the keywords. */
  lemma KeywordsReadBack(keywords: seq<string>)
    requires |keywords| >= 1 && Listable(keywords)
    ensures var parts := Split(Join(keywords, ", "), ',');
      |parts| == |keywords| && forall k :: 0 <= k < |parts| ==> Trim(parts[k]) == keywords[k]
  {
    var pieces := CommaPieces(keywords);
    JoinCommaPieces(keywords);
    forall k | 0 <= k < |pieces|
      ensures ',' !in pieces[k] && Trim(pieces[k]) == keywords[k]
    {
      CommaPieceTrims(keywords, k);
    }
    SplitOfJoin(pieces, ',');
  }

  /** The suggestions of a variant, one per line: splitting at the line breaks gives them back. */
  function Suggestions(p: Phrases, variant: nat): (r: string)
    requires WellFormed(p) && variant < 3
    ensures |r| > 0
    ensures StartsWith(r, p.variants[variant][0]) && EndsWith(r, p.variants[variant][2])
    ensures Split(r, '\n') == p.variants[variant]
  {
    JoinEnds(p.variants[variant], "\n");
    SplitOfJoin(p.variants[variant], '\n');
    Join(p.variants[variant], "\n")
  }

  /** The value when present, as a list of zero or one lines (`filter(Boolean)` on a nullable). */
  function Present(line: Option<string>): (r: seq<string>)
    ensures |r| == if line.Some? then 1 else 0
    ensures line.Some? ==> r[0] == line.value
  {
    if line.Some? then [line.value] else []
  }

  /**
   * The paragraphs in order, leaving out the optional ones that are absent:
   * header, reason, topic, keywords, reference, prompt, suggestions, question.
   */
  function Assemble(header: string, reason: Option<string>, topic: string, keywords: Option<string>,
                    reference: Option<string>, prompt: string, suggestions: string, question: string): (r: seq<string>)
    ensures |r| == 5 + |Present(reason)| + |Present(keywords)| + |Present(reference)|
    ensures r[0] == header && r[|r| - 1] == question
    ensures r[|r| - 3] == prompt && r[|r| - 2] == suggestions
    ensures reason.Some? ==> r[1] == reason.value
    ensures var t := 1 + |Present(reason)|;
      r[t] == topic && (keywords.Some? ==> r[t + 1] == keywords.value)
    ensures reference.Some? ==> r[|r| - 4] == reference.value
    ensures (header != "" && topic != "" && prompt != "" && suggestions != "" && question != ""
             && (reason.Some? ==> reason.value != "") && (keywords.Some? ==> keywords.value != "")
             && (reference.Some? ==> reference.value != ""))
            ==> forall k :: 0 <= k < |r| ==> r[k] != ""
  {
    [header] + Present(reason) + [topic] + Present(keywords) + Present(reference) + [prompt, suggestions, question]
  }

  /**
   * The paragraphs of the reply in the wording `p`, in order: header, skip
   * reason, topic, keywords (Korean only), recent entry, prompt, suggestions,
   * question. None of them is empty, so `filter(Boolean)` only drops the
   * absent ones.
   */
  function Sections(locale: Locale, p: Phrases, reason: Option<OfflineReason>, trimmed: string,
                    keywords: seq<string>, hint: Option<LogHint>, variant: nat): (r: seq<string>)
    requires WellFormed(p) && variant < 3
    ensures forall k :: 0 <= k < |r| ==> r[k] != ""
    ensures |r| == 5 + (if reason.Some? then 1 else 0)
                    + (if locale == Ko && |keywords| > 0 then 1 else 0) + (if hint.Some? then 1 else 0)
    ensures r[0] == p.header && r[|r| - 1] == p.question
  {
    var reasonLine := if reason.Some? then Some(p.reasons[ReasonIndex(reason.value)]) else None;
    var keywordLine := if locale == Ko && |keywords| > 0 then Some(KeywordLine(keywords)) else None;
    var refLine := if hint.Some? then Some(RefLine(p, hint.value)) else None;
    Assemble(p.header, reasonLine, Topic(p, trimmed), keywordLine, refLine, p.prompt, Suggestions(p, variant), p.question)
  }

  /**
   * Where each paragraph sits: the skip reason right after the header, then
   * the topic, the keyword line (Korean only), and the recent entry just
   * before the prompt and the suggestions.
   */
  lemma SectionsOrder(locale: Locale, p: Phrases, reason: Option<OfflineReason>, trimmed: string,
                      keywords: seq<string>, hint: Option<LogHint>, variant: nat)
    requires WellFormed(p) && variant < 3
    ensures var r := Sections(locale, p, reason, trimmed, keywords, hint, variant);
      && (reason.Some? ==> r[1] == p.reasons[ReasonIndex(reason.value)])
      && r[if reason.Some? then 2 else 1] == Topic(p, trimmed)
      && (locale == Ko && |keywords| > 0 ==> r[if reason.Some? then 3 else 2] == KeywordLine(keywords))
      && (hint.Some? ==> r[|r| - 4] == RefLine(p, hint.value))
      && r[|r| - 3] == p.prompt && r[|r| - 2] == Suggestions(p, variant)
  {
  }

  /**
   * The text of the offline reply in the wording `p`: the paragraphs joined
   * by blank lines, with the variant picked by the seed and, in Korean, up to
   * three keywords.
   */
  function ReplyWith(p: Phrases, userText: string, logs: seq<DailyLog>, locale: Locale, reason: Option<OfflineReason>,
                     nowISO: string): (r: string)
    requires WellFormed(p)
    ensures StartsWith(r, p.header) && EndsWith(r, p.question)
    ensures r == Join(ReplySections(p, userText, logs, locale, reason, nowISO), "\n\n")
  {
    var sections := ReplySections(p, userText, logs, locale, reason, nowISO);
    JoinEnds(sections, "\n\n");
    Join(sections, "\n\n")
  }

  /**
   * The paragraphs of the reply to `userText`: the trimmed text is the
   * topic, the newest entry gives the hint, the seed picks the variant and,
   * in Korean, the text gives the keywords.
   */
  function ReplySections(p: Phrases, userText: string, logs: seq<DailyLog>, locale: Locale, reason: Option<OfflineReason>,
                         nowISO: string): seq<string>
    requires WellFormed(p)
  {
    Sections(locale, p, reason, Trim(userText), KeywordsOf(locale, Trim(userText)), LastLogHint(logs), Variant(nowISO, userText))
  }

  /** The keywords of a reply: up to three picked from the trimmed text in Korean, none otherwise. */
  function KeywordsOf(locale: Locale, trimmed: string): seq<string> {
    if locale == Ko then FirstDistinct(Words(trimmed), 3) else []
  }

  /** The suggestion variant of a reply: the hash of the seed text modulo 3. */
  function Variant(nowISO: string, userText: string): (v: nat)
    ensures v < 3
  {
    VariantOf(Fnv(CodeUnits(SeedText(nowISO, userText))) as nat)
  }

  /** The keywords of a reply, picked by the `pickKeywordsKo` loop in Korean. */
  method ReplyKeywords(locale: Locale, trimmed: string) returns (keywords: seq<string>)
    ensures keywords == KeywordsOf(locale, trimmed)
  {
    keywords := [];
    if locale == Ko {
      keywords := PickKeywordsKo(trimmed, 3);
    }
  }

  /** The suggestion variant of a reply, from the `hashString` loop. */
  method ReplyVariant(nowISO: string, userText: string) returns (variant: nat)
    ensures variant == Variant(nowISO, userText)
  {
    var seed := HashString(SeedText(nowISO, userText));
    variant := VariantOf(seed);
  }

  /**
   * `makeAssistantReply`: an assistant message carrying the reply text; the
   * message id and time come from the clock.
   */
  method MakeAssistantReply(userText: string, logs: seq<DailyLog>, locale: Locale, reason: Option<OfflineReason>,
                            nowISO: string, nowMs: int) returns (m: ChatMessage)
    ensures m.role == Assistant
    ensures m.id == "assistant_" + IntToString(nowMs) && m.createdAtISO == nowISO
    ensures m.text == Join(ReplySections(PhrasesOf(locale), userText, logs, locale, reason, nowISO), "\n\n")
  {
    var trimmed := Trim(userText);
    var keywords := ReplyKeywords(locale, trimmed);
    var variant := ReplyVariant(nowISO, userText);
    var sections := Sections(locale, PhrasesOf(locale), reason, trimmed, keywords, LastLogHint(logs), variant);
    assert sections == ReplySections(PhrasesOf(locale), userText, logs, locale, reason, nowISO);
    m := ChatMessage("assistant_" + IntToString(nowMs), Assistant, Join(sections, "\n\n"), nowISO);
  }
}
