/**
 * The mobile client of the mentor endpoint, `mobile/src/ai/mentorApi.ts`: it
 * prefixes the user's message with a language hint, posts it as `question`
 * and turns the answer into the reply text or an error message.
 *
 * The network call is a parameter: what `fetch` gave back, an abort after
 * the timeout included.
 */
module MentorApi {
  import opened Wrappers
  import opened Text
  import opened Json
  import opened Types
  import AdviseRoute

  const MentorApiUrl := "https://myeverything.kr/api/mentor/advise"

  /** The abort timer's default length in milliseconds. */
  const DefaultTimeoutMs := 20000

  function Hint(locale: Locale): string {
    match locale
    case En => "Please reply in English.\n\n"
    case Ja => "日本語で答えてください。\n\n"
    case Ko => "한국어로 답해줘.\n\n"
  }

  /** The message with the reply-language hint of the locale in front. */
  function WithLanguageHint(locale: Locale, message: string): (r: string)
    ensures EndsWith(r, message)
    ensures StartsWith(r, Hint(locale))
    ensures |r| == |Hint(locale)| + |message|
  {
    Hint(locale) + message
  }

  /** The three hints differ, so the hint tells which locale asked. */
  lemma HintsDistinct(a: Locale, b: Locale, m1: string, m2: string)
    requires WithLanguageHint(a, m1) == WithLanguageHint(b, m2)
    ensures a == b && m1 == m2
  {
    var r := WithLanguageHint(a, m1);
    assert r[..|Hint(a)|] == Hint(a);
    assert r[..|Hint(b)|] == Hint(b);
    assert Hint(a)[0] == r[0] == Hint(b)[0];
    assert a == b;
    assert m1 == r[|Hint(a)|..] == m2;
  }

  /** The request body `{question}` the client posts. */
  function RequestBody(locale: Locale, message: string): Json {
    JObj(map["question" := JStr(WithLanguageHint(locale, message))])
  }

  /** What `fetch` gave back: a thrown error (an abort among them), or a status with the body as text and as JSON. */
  datatype Answer =
    | Threw(message: string)
    | Answered(status: int, text: string, data: Option<Json>)

  /** A trimmed reply candidate: the reply itself, or `mentor_api_bad_response` when it is empty. */
  function ReplyOrBad(reply: string): Result<string, string> {
    if reply == "" then Err("mentor_api_bad_response") else Ok(reply)
  }

  /**
   * The outcome of `fetchMentorAdvice`: a failed status gives
   * `mentor_api_http_<status>` with up to 200 characters of the body; an
   * explicit `ok: false` gives its message (or `mentor_api_not_ok`); otherwise
   * the trimmed `reply` (or `advice`) string, and `mentor_api_bad_response`
   * when that is empty.
   */
  function Interpret(answer: Answer): (r: Result<string, string>)
    ensures r.Ok? ==> r.value != "" && IsTrimmed(r.value)
    ensures answer.Threw? ==> r == Err(answer.message)
    ensures answer.Answered? && !AdviseRoute.IsOk(answer.status) ==>
      r.Err? && StartsWith(r.error, "mentor_api_http_" + IntToString(answer.status))
    ensures answer.Answered? && !AdviseRoute.IsOk(answer.status) && answer.text == "" ==>
      r == Err("mentor_api_http_" + IntToString(answer.status))
    ensures answer.Answered? && AdviseRoute.IsOk(answer.status) && Get(answer.data, "ok") == Some(JBool(false)) ==>
      r.Err? && r.error == AsString(Get(answer.data, "message")).GetOr("mentor_api_not_ok")
    ensures answer.Answered? && !AdviseRoute.IsOk(answer.status) && answer.text != "" ==>
      r == Err("mentor_api_http_" + IntToString(answer.status) + ": " + Take(answer.text, 200))
    ensures answer.Answered? && AdviseRoute.IsOk(answer.status) && Get(answer.data, "ok") != Some(JBool(false)) ==>
      var reply := AsString(Get(answer.data, "reply"));
      var advice := AsString(Get(answer.data, "advice"));
      && (reply.Some? ==> r == ReplyOrBad(Trim(reply.value)))
      && (reply.None? && advice.Some? ==> r == ReplyOrBad(Trim(advice.value)))
      && (reply.None? && advice.None? ==> r == Err("mentor_api_bad_response"))
  {
    match answer
    case Threw(message) => Err(message)
    case Answered(status, text, data) =>
      if !AdviseRoute.IsOk(status) then
        var head := "mentor_api_http_" + IntToString(status);
        if text != "" then Err(head + ": " + Take(text, 200)) else Err(head)
      else if Get(data, "ok") == Some(JBool(false)) then
        Err(AsString(Get(data, "message")).GetOr("mentor_api_not_ok"))
      else
        var candidate :=
          if AsString(Get(data, "reply")).Some? then AsString(Get(data, "reply")).value
          else AsString(Get(data, "advice")).GetOr("");
        ReplyOrBad(Trim(candidate))
  }

  /**
   * The client reads the mentor endpoint's success body as the reply it
   * carries: the two agree on `{ok: true, reply}`.
   */
  lemma ReadsRouteReply(reply: string, text: string)
    requires reply != "" && IsTrimmed(reply)
    ensures Interpret(Answered(200, text, Some(AdviseRoute.SuccessBody(reply)))) == Ok(reply)
  {
    var data := Some(AdviseRoute.SuccessBody(reply));
    assert Get(data, "ok") == Some(JBool(true));
    assert AsString(Get(data, "reply")) == Some(reply);
    TrimOfTrimmed(reply);
  }

  /** Every error body of the mentor endpoint reaches the client as an error naming the status. */
  lemma RouteFailuresAreErrors(origin: Option<string>, apiKey: Option<string>, body: Option<Json>,
                               upstream: AdviseRoute.Upstream, numText: real -> string, text: string)
    requires AdviseRoute.Post(origin, apiKey, body, upstream, numText).response.status != 200
    ensures var resp := AdviseRoute.Post(origin, apiKey, body, upstream, numText).response;
      Interpret(Answered(resp.status, text, resp.body)).Err?
  {
  }
}
