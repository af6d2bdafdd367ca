/**
 * The keyword emotion classifier of `mobile/src/ai/emotion.ts`: every label
 * scores 2 per keyword that occurs in the trimmed, lower-cased text, 불안 and
 * 혼란 get 1 more when the text has `!` or `?`, and the best score wins, ties
 * going to the earlier label and an all-zero score meaning 혼란.
 */
module Emotion {
  import opened Text
  import opened Types
  import opened Seqs

  datatype EmotionResult = EmotionResult(emotion: Label, summary: string)

  /** The labels in the order the classifier scores them (`Object.keys(KEYWORDS)`). */
  const Labels: seq<Label> := [Stable, Tired, Anxious, Confused]

  /** Position of a label in `Labels`, which decides ties. */
  function Rank(l: Label): nat {
    match l
    case Stable => 0
    case Tired => 1
    case Anxious => 2
    case Confused => 3
  }

  function Keywords(l: Label): (ks: seq<string>)
    ensures |ks| == 8
  {
    match l
    case Stable => ["괜찮", "편안", "차분", "감사", "기분좋", "좋았", "만족", "여유"]
    case Tired => ["피곤", "지침", "지쳤", "졸려", "잠", "무기력", "힘들", "버거"]
    case Anxious => ["불안", "걱정", "긴장", "초조", "두려", "무섭", "불편", "떨려"]
    case Confused => ["혼란", "헷갈", "모르겠", "정리가", "복잡", "갈피", "애매", "뒤죽박죽"]
  }

  /** How many of the needles occur in the text; each counts at most once. */
  function Hits(needles: seq<string>, text: string): (n: nat)
    ensures n <= |needles|
    ensures n == 0 <==> forall k :: 0 <= k < |needles| ==> !Contains(text, needles[k])
    ensures n == |needles| <==> forall k :: 0 <= k < |needles| ==> Contains(text, needles[k])
    decreases |needles|
  {
    if |needles| == 0 then 0
    else
      var rest := Hits(needles[1..], text);
      assert forall k :: 1 <= k < |needles| ==> needles[k] == needles[1..][k - 1];
      (if Contains(text, needles[0]) then 1 else 0) + rest
  }

  /** The text has an exclamation or a question mark (`/[!?]/`). */
  predicate HasMark(text: string) {
    '!' in text || '?' in text
  }

  /** `scoreFor`: the score of one label for already normalised text. */
  function ScoreFor(l: Label, text: string): (r: int)
    ensures 0 <= r <= 17
    ensures (l == Stable || l == Tired) ==> r <= 16
  {
    2 * Hits(Keywords(l), text) + (if (l == Anxious || l == Confused) && HasMark(text) then 1 else 0)
  }

  /**
   * A score splits back into its parts: half of it, rounded down, is the
   * number of keywords that occur, and it is odd exactly when the mark bonus
   * applied.
   */
  lemma ScoreParts(l: Label, text: string)
    ensures ScoreFor(l, text) % 2 == 1 <==> (l == Anxious || l == Confused) && HasMark(text)
    ensures ScoreFor(l, text) / 2 == Hits(Keywords(l), text)
  {
    var h := Hits(Keywords(l), text);
    var b := if (l == Anxious || l == Confused) && HasMark(text) then 1 else 0;
    HalfOfTwiceplus(ScoreFor(l, text), h, b);
  }

  lemma HalfOfTwiceplus(n: int, h: nat, b: int)
    requires 0 <= b <= 1 && n == 2 * h + b
    ensures n / 2 == h && n % 2 == b
  {
  }

  /** The text the classifier scores: `content.trim().toLowerCase()`. */
  function Normalize(content: string): string {
    ToLower(Trim(content))
  }

  /** The fixed Korean summary of each label. */
  function Summary(l: Label): string {
    match l
    case Stable => "오늘은 비교적 차분하게 나를 바라본 하루였어요."
    case Tired => "오늘은 에너지가 많이 소모된 하루로 보여요. 쉬어갈 여지를 만들어보면 좋아요."
    case Anxious => "마음이 조심스레 경계하고 있는 신호가 보여요. 무엇을 지키고 싶은지 떠올려보면 좋아요."
    case Confused => "생각과 감정이 한꺼번에 몰려온 하루로 보여요. 한 가지부터 천천히 정리해봐도 괜찮아요."
  }

  /** The label at a position of `Labels`. */
  function LabelAt(i: nat): (l: Label)
    requires i < 4
    ensures Rank(l) == i && Labels[i] == l
  {
    if i == 0 then Stable else if i == 1 then Tired else if i == 2 then Anxious else Confused
  }

  /** `LabelAt` undoes `Rank`. */
  lemma RankInverse(l: Label)
    ensures Rank(l) < 4 && LabelAt(Rank(l)) == l
  {
  }

  /** The score list in `Labels` order holds each label's score at the label's rank. */
  lemma ScoresByRank(s: seq<int>, t: string)
    requires |s| == 4 && forall i :: 0 <= i < 4 ==> s[i] == ScoreFor(LabelAt(i), t)
    ensures forall l: Label :: s[Rank(l)] == ScoreFor(l, t)
  {
    forall l: Label
      ensures s[Rank(l)] == ScoreFor(l, t)
    {
      RankInverse(l);
    }
  }

  /**
   * The winning label of normalised text. It has the top score; every earlier
   * label scores strictly less; when nothing scores, it is 혼란.
   */
  function Winner(t: string): (w: Label)
    ensures forall l: Label :: ScoreFor(l, t) <= ScoreFor(w, t)
    ensures ScoreFor(w, t) > 0 ==> forall l: Label :: Rank(l) < Rank(w) ==> ScoreFor(l, t) < ScoreFor(w, t)
    ensures ScoreFor(w, t) == 0 ==> w == Confused
  {
    var s := seq(4, i requires 0 <= i < 4 => ScoreFor(LabelAt(i), t));
    ScoresByRank(s, t);
    var b := BestIndex(s);
    if s[b] <= 0 then Confused else LabelAt(b)
  }

  /** Nothing scores exactly when the winner is 혼란 with a zero score. */
  lemma NothingScored(t: string)
    ensures (forall l: Label :: ScoreFor(l, t) == 0) <==> Winner(t) == Confused && ScoreFor(Confused, t) == 0
  {
  }

  /** `analyzeEmotion`: the winner of the normalised content, with its fixed summary. */
  function Analyze(content: string): (r: EmotionResult)
    ensures var t := Normalize(content);
      && (forall l: Label :: ScoreFor(l, t) <= ScoreFor(r.emotion, t))
      && (ScoreFor(r.emotion, t) > 0 ==> forall l: Label :: Rank(l) < Rank(r.emotion) ==> ScoreFor(l, t) < ScoreFor(r.emotion, t))
      && ((forall l: Label :: ScoreFor(l, t) == 0) <==> r.emotion == Confused && ScoreFor(Confused, t) == 0)
    ensures r.summary == Summary(r.emotion)
  {
    NothingScored(Normalize(content));
    var w := Winner(Normalize(content));
    EmotionResult(w, Summary(w))
  }

  /** The summaries `analyzeEmotionLocalized` uses for English and Japanese; Korean keeps `Summary`. */
  function LocalizedSummary(locale: Locale, l: Label): string {
    match locale
    case Ko => Summary(l)
    case En =>
      (match l
       case Stable => "Today looks like a relatively calm day of gently seeing yourself."
       case Tired => "It seems your energy was heavily used today. Giving yourself room to rest could help."
       case Anxious => "I sense a careful signal of vigilance. What are you trying to protect right now?"
       case Confused => "Thoughts and feelings may have arrived all at once. It’s okay to sort just one thing at a time.")
    case Ja =>
      (match l
       case Stable => "今日は比較的落ち着いて自分を見つめられた一日だったようです。"
       case Tired => "今日はエネルギーをたくさん使ったようです。休む余白を作ってみてもいいですね。"
       case Anxious => "心が慎重に警戒しているサインが見えます。いま守りたいものは何でしょう？"
       case Confused => "考えと感情が一度に押し寄せたようです。一つずつ整理しても大丈夫です。")
  }

  /** `analyzeEmotionLocalized`: the same label as `Analyze`, the summary in the locale's language. */
  function AnalyzeLocalized(content: string, locale: Locale): (r: EmotionResult)
    ensures r.emotion == Analyze(content).emotion
    ensures r.summary == LocalizedSummary(locale, r.emotion)
    ensures locale == Ko ==> r == Analyze(content)
  {
    var base := Analyze(content);
    EmotionResult(base.emotion, if locale == Ko then base.summary else LocalizedSummary(locale, base.emotion))
  }

  /** Classifying the trimmed content gives the same verdict as classifying the content. */
  lemma AnalyzeTrimmed(content: string)
    ensures Analyze(Trim(content)) == Analyze(content)
  {
    TrimIdempotent(content);
  }

  /** Whitespace around the content never changes the classification. */
  lemma AnalyzeIgnoresPadding(w1: string, content: string, w2: string)
    requires AllSpace(w1) && AllSpace(w2)
    ensures Analyze(w1 + content + w2) == Analyze(content)
  {
    TrimIgnoresPadding(w1, content, w2);
  }

  const TiredText: string := "오늘은 너무 피곤하고 지쳤다"

  lemma TiredTextIsTrimmed(t: string)
    requires t == TiredText
    ensures Trim(t) == t
  {
    assert IsTrimmed(t);
    TrimOfPadded("", t, "");
    assert "" + t + "" == t;
  }

  lemma TiredTextIsLower(t: string)
    requires t == TiredText
    ensures ToLower(t) == t
  {
    assert forall i :: 0 <= i < |t| ==> LowerChar(t[i]) == t[i];
  }

  lemma TiredTextStableHead(t: string)
    requires t == TiredText
    ensures !Contains(t, "괜찮") && !Contains(t, "편안") && !Contains(t, "차분") && !Contains(t, "감사")
  {
    AbsentCharNotContained(t, "괜찮", 0);
    AbsentCharNotContained(t, "편안", 0);
    AbsentCharNotContained(t, "차분", 0);
    AbsentCharNotContained(t, "감사", 0);
  }

  lemma TiredTextStableTail(t: string)
    requires t == TiredText
    ensures !Contains(t, "기분좋") && !Contains(t, "좋았") && !Contains(t, "만족") && !Contains(t, "여유")
  {
    AbsentCharNotContained(t, "기분좋", 0);
    AbsentCharNotContained(t, "좋았", 0);
    AbsentCharNotContained(t, "만족", 0);
    AbsentCharNotContained(t, "여유", 0);
  }

  lemma TiredTextStable(t: string)
    requires t == TiredText
    ensures ScoreFor(Stable, t) == 0
  {
    TiredTextStableHead(t);
    TiredTextStableTail(t);
  }

  lemma TiredTextTiredFound(t: string)
    requires t == TiredText
    ensures Contains(t, "피곤") && Contains(t, "지쳤")
  {
    assert t[7..9] == "피곤";
    assert OccursAt(t, "피곤", 7);
    assert t[12..14] == "지쳤";
    assert OccursAt(t, "지쳤", 12);
  }

  lemma TiredTextTiredHead(t: string)
    requires t == TiredText
    ensures !Contains(t, "지침") && !Contains(t, "졸려") && !Contains(t, "잠")
  {
    AbsentCharNotContained(t, "지침", 1);
    AbsentCharNotContained(t, "졸려", 0);
    AbsentCharNotContained(t, "잠", 0);
  }

  lemma TiredTextTiredTail(t: string)
    requires t == TiredText
    ensures !Contains(t, "무기력") && !Contains(t, "힘들") && !Contains(t, "버거")
  {
    AbsentCharNotContained(t, "무기력", 1);
    AbsentCharNotContained(t, "힘들", 0);
    AbsentCharNotContained(t, "버거", 0);
  }

  lemma TiredTextTired(t: string)
    requires t == TiredText
    ensures ScoreFor(Tired, t) == 4
  {
    TiredTextTiredFound(t);
    TiredTextTiredHead(t);
    TiredTextTiredTail(t);
  }

  lemma TiredTextAnxiousHead(t: string)
    requires t == TiredText
    ensures !Contains(t, "불안") && !Contains(t, "걱정") && !Contains(t, "긴장") && !Contains(t, "초조")
  {
    AbsentCharNotContained(t, "불안", 0);
    AbsentCharNotContained(t, "걱정", 0);
    AbsentCharNotContained(t, "긴장", 0);
    AbsentCharNotContained(t, "초조", 0);
  }

  lemma TiredTextAnxiousTail(t: string)
    requires t == TiredText
    ensures !Contains(t, "두려") && !Contains(t, "무섭") && !Contains(t, "불편") && !Contains(t, "떨려")
  {
    AbsentCharNotContained(t, "두려", 0);
    AbsentCharNotContained(t, "무섭", 1);
    AbsentCharNotContained(t, "불편", 0);
    AbsentCharNotContained(t, "떨려", 0);
  }

  lemma TiredTextAnxious(t: string)
    requires t == TiredText
    ensures ScoreFor(Anxious, t) == 0
  {
    TiredTextAnxiousHead(t);
    TiredTextAnxiousTail(t);
    assert '!' !in t && '?' !in t;
  }

  lemma TiredTextConfusedHead(t: string)
    requires t == TiredText
    ensures !Contains(t, "혼란") && !Contains(t, "헷갈") && !Contains(t, "모르겠") && !Contains(t, "정리가")
  {
    AbsentCharNotContained(t, "혼란", 0);
    AbsentCharNotContained(t, "헷갈", 0);
    AbsentCharNotContained(t, "모르겠", 0);
    AbsentCharNotContained(t, "정리가", 0);
  }

  lemma TiredTextConfusedTail(t: string)
    requires t == TiredText
    ensures !Contains(t, "복잡") && !Contains(t, "갈피") && !Contains(t, "애매") && !Contains(t, "뒤죽박죽")
  {
    AbsentCharNotContained(t, "복잡", 0);
    AbsentCharNotContained(t, "갈피", 0);
    AbsentCharNotContained(t, "애매", 0);
    AbsentCharNotContained(t, "뒤죽박죽", 0);
  }

  lemma TiredTextConfused(t: string)
    requires t == TiredText
    ensures ScoreFor(Confused, t) == 0
  {
    TiredTextConfusedHead(t);
    TiredTextConfusedTail(t);
    assert '!' !in t && '?' !in t;
  }


  /** "오늘은 너무 피곤하고 지쳤다" has 피곤 and 지쳤, so 피곤 scores 4 and wins. */
  lemma TiredExample(t: string)
    requires t == TiredText
    ensures Analyze(t).emotion == Tired
  {
    TiredTextIsTrimmed(t);
    TiredTextIsLower(t);
    TiredTextStable(t);
    TiredTextTired(t);
    TiredTextAnxious(t);
    TiredTextConfused(t);
  }
}
