/**
 * The server's diary sync endpoint, `app/sync/logs/route.ts`. POST appends
 * one row per accepted diary entry to a JSON-lines file; GET reads the file
 * back, either for one device (query mode) or as a raw tail (debug mode).
 *
 * The request object, the file system, `JSON.parse`, `Date` parsing and
 * `Number` are parameters: a POST body arrives already parsed (`None` when
 * `req.json()` fails), the file arrives as its text (`None` when it cannot be
 * read), `parse` gives `None` where `JSON.parse` throws, `timeOf` gives the
 * finite `new Date(v).getTime()` or `None` for NaN, and the numeric query
 * parameters arrive as the numbers `Number(...)` made of them.
 */
module LogsRoute {
  import opened Wrappers
  import opened Text
  import opened Json
  import opened JsNumber
  import opened Sorting

  /** A JSON reply with its HTTP status. */
  datatype Reply = Reply(status: int, body: Json)

  function Failure(status: int, message: string): Reply {
    Reply(status, JObj(map["ok" := JBool(false), "message" := JStr(message)]))
  }

  const Success: Reply := Reply(200, JObj(map["ok" := JBool(true)]))

  // ---------------------------------------------------------------------------
  // POST
  // ---------------------------------------------------------------------------

  /** One line of the JSON-lines file. */
  datatype LogRow = LogRow(storedAtISO: string, deviceId: string, log: Json, ua: string)

  /** The object `JSON.stringify` writes for a row. */
  function RowJson(row: LogRow): Json {
    JObj(map[
      "storedAtISO" := JStr(row.storedAtISO),
      "deviceId" := JStr(row.deviceId),
      "log" := row.log,
      "ua" := JStr(row.ua)])
  }

  /** The trimmed `deviceId` of the body, or `""` when it is not a string. */
  function DeviceIdOf(body: Option<Json>): string {
    match AsString(Get(body, "deviceId"))
    case Some(s) => Trim(s)
    case None => ""
  }

  /** `typeof v === "object"` for a truthy value. */
  predicate IsObject(v: Option<Json>) {
    v.Some? && (v.value.JObj? || v.value.JArr?)
  }

  predicate NonEmptyString(v: Option<Json>) {
    AsString(v).Some? && AsString(v).value != ""
  }

  predicate HasText(v: Option<Json>) {
    AsString(v).Some? && Trim(AsString(v).value) != ""
  }

  /** Every field the endpoint insists on is present. */
  predicate Acceptable(body: Option<Json>) {
    var log := Get(body, "log");
    DeviceIdOf(body) != "" && IsObject(log) && NonEmptyString(Get(log, "id"))
    && NonEmptyString(Get(log, "createdAtISO")) && HasText(Get(log, "content"))
  }

  /** The 400 message of the first check the body fails, in the order the handler makes them. */
  function Rejection(body: Option<Json>): (r: Option<string>)
    ensures r.None? <==> Acceptable(body)
    ensures DeviceIdOf(body) == "" ==> r == Some("deviceId required")
    ensures DeviceIdOf(body) != "" && !IsObject(Get(body, "log")) ==> r == Some("log required")
    ensures var log := Get(body, "log");
      DeviceIdOf(body) != "" && IsObject(log) && !NonEmptyString(Get(log, "id")) ==>
        r == Some("log.id required")
    ensures var log := Get(body, "log");
      DeviceIdOf(body) != "" && IsObject(log) && NonEmptyString(Get(log, "id"))
      && !NonEmptyString(Get(log, "createdAtISO")) ==>
        r == Some("log.createdAtISO required")
    ensures var log := Get(body, "log");
      DeviceIdOf(body) != "" && IsObject(log) && NonEmptyString(Get(log, "id"))
      && NonEmptyString(Get(log, "createdAtISO")) && !HasText(Get(log, "content")) ==>
        r == Some("log.content required")
    ensures r.Some? ==> r.value in {"deviceId required", "log required", "log.id required",
                                    "log.createdAtISO required", "log.content required"}
  {
    var log := Get(body, "log");
    if DeviceIdOf(body) == "" then Some("deviceId required")
    else if !IsObject(log) then Some("log required")
    else if !NonEmptyString(Get(log, "id")) then Some("log.id required")
    else if !NonEmptyString(Get(log, "createdAtISO")) then Some("log.createdAtISO required")
    else if !HasText(Get(log, "content")) then Some("log.content required")
    else None
  }

  datatype PostOutcome = PostOutcome(reply: Reply, appended: Option<LogRow>)

  /**
   * `POST`: validates the body and appends a row stamped with the server
   * time `nowISO` and the `user-agent` header; `stored` says whether creating
   * the directory and appending to the file succeeded. `appended` is the row
   * the file gained, so it is there exactly when the reply is a success.
   */
  function HandlePost(body: Option<Json>, nowISO: string, userAgent: Option<string>, stored: bool): (r: PostOutcome)
    ensures r.appended.Some? <==> Acceptable(body) && stored
    ensures r.appended.Some? <==> r.reply == Success
    ensures r.reply == Success <==> Acceptable(body) && stored
    ensures !Acceptable(body) ==> r.reply == Failure(400, Rejection(body).value)
    ensures Acceptable(body) && !stored ==> r.reply == Failure(500, "server_error")
    ensures r.appended.Some? ==>
      r.appended.value == LogRow(nowISO, DeviceIdOf(body), Get(body, "log").value, userAgent.GetOr(""))
  {
    match Rejection(body)
    case Some(message) => PostOutcome(Failure(400, message), None)
    case None =>
      var row := LogRow(nowISO, DeviceIdOf(body), Get(body, "log").value, userAgent.GetOr(""));
      if stored then PostOutcome(Success, Some(row)) else PostOutcome(Failure(500, "server_error"), None)
  }

  // ---------------------------------------------------------------------------
  // GET
  // ---------------------------------------------------------------------------

  /** The search parameters, `None` where a parameter is absent. */
  datatype Query = Query(
    deviceId: Option<string>,
    startISO: Option<string>,
    endISO: Option<string>,
    limit: Option<JsNum>,
    n: Option<JsNum>)

  datatype GetReply =
    | Logs(logs: seq<Json>)
    | Debug(count: nat, tail: seq<Json>)

  /** The pieces that are not empty (`filter(Boolean)`), in order. */
  function NonEmpty(parts: seq<string>): (r: seq<string>)
    ensures |r| <= |parts|
    ensures forall k :: 0 <= k < |r| ==> r[k] != "" && r[k] in parts
    ensures forall k :: 0 <= k < |parts| && parts[k] != "" ==> parts[k] in r
    ensures (forall k :: 0 <= k < |parts| ==> parts[k] != "") ==> r == parts
    decreases |parts|
  {
    if |parts| == 0 then []
    else
      var rest := NonEmpty(parts[1..]);
      assert forall k :: 1 <= k < |parts| ==> parts[k] == parts[1..][k - 1];
      if parts[0] == "" then rest else [parts[0]] + rest
  }

  /** `raw.trim().split("\n").filter(Boolean)`: the non-empty lines of the file. */
  function Lines(raw: string): (r: seq<string>)
    ensures forall k :: 0 <= k < |r| ==> r[k] != "" && '\n' !in r[k]
  {
    var pieces := Split(Trim(raw), '\n');
    assert forall k :: 0 <= k < |pieces| ==> '\n' !in pieces[k] by {
      forall k | 0 <= k < |pieces|
        ensures '\n' !in pieces[k]
      {
        assert forall j :: 0 <= j < |pieces[k]| ==> pieces[k][j] != '\n';
      }
    }
    NonEmpty(pieces)
  }

  /**
   * A file made by appending one newline-terminated JSON text per row reads
   * back as exactly those rows: a JSON text is never empty, has no raw
   * newline and does not begin or end with whitespace.
   */
  lemma AppendedLinesReadBack(rows: seq<string>)
    requires |rows| >= 1
    requires forall k :: 0 <= k < |rows| ==> rows[k] != "" && '\n' !in rows[k]
    requires !IsSpace(rows[0][0]) && !IsSpace(rows[|rows| - 1][|rows[|rows| - 1]| - 1])
    ensures Lines(Join(rows, "\n") + "\n") == rows
  {
    var j := Join(rows, "\n");
    JoinEnds(rows, "\n");
    assert j[0] == rows[0][0];
    assert j[|j| - 1] == rows[|rows| - 1][|rows[|rows| - 1]| - 1];
    assert IsTrimmed(j);
    TrimOfPadded("", j, "\n");
    assert "" + j + "\n" == j + "\n";
    SplitOfJoin(rows, '\n');
  }

  /** The window `[min(a, b), max(a, b)]` of a query, when both ends are non-empty and parse. */
  datatype Window = Window(start: int, end: int)

  function TimeOfParam(iso: Option<string>, timeOf: Json -> Option<int>): Option<int> {
    if iso.Some? && iso.value != "" then timeOf(JStr(iso.value)) else None
  }

  function WindowOf(startISO: Option<string>, endISO: Option<string>, timeOf: Json -> Option<int>): (r: Option<Window>)
    ensures r.Some? <==> TimeOfParam(startISO, timeOf).Some? && TimeOfParam(endISO, timeOf).Some?
    ensures r.Some? ==> r.value.start <= r.value.end
    ensures r.Some? ==>
      var a := TimeOfParam(startISO, timeOf).value;
      var b := TimeOfParam(endISO, timeOf).value;
      (r.value.start == a || r.value.start == b) && (r.value.end == a || r.value.end == b)
  {
    var a := TimeOfParam(startISO, timeOf);
    var b := TimeOfParam(endISO, timeOf);
    if a.Some? && b.Some? then
      Some(Window(if a.value < b.value then a.value else b.value,
                  if a.value < b.value then b.value else a.value))
    else None
  }

  /** Swapping the two ends of the range selects the same window. */
  lemma WindowSymmetric(startISO: Option<string>, endISO: Option<string>, timeOf: Json -> Option<int>)
    ensures WindowOf(startISO, endISO, timeOf) == WindowOf(endISO, startISO, timeOf)
  {
  }

  /** The diary entry one parsed line contributes to a device query, if any. */
  function Selected(row: Option<Json>, deviceId: string, window: Option<Window>, timeOf: Json -> Option<int>): (r: Option<Json>)
    ensures r.Some? ==> IsObject(row) && Get(row, "deviceId") == Some(JStr(deviceId))
    ensures r.Some? ==> Get(row, "log") == Some(r.value) && Truthy(Get(r, "createdAtISO"))
    ensures r.Some? && window.Some? ==>
      var t := timeOf(Get(r, "createdAtISO").value);
      t.Some? && window.value.start <= t.value <= window.value.end
    ensures IsObject(row) && Get(row, "deviceId") == Some(JStr(deviceId))
      && Truthy(Get(Get(row, "log"), "createdAtISO"))
      && (window.Some? ==>
            var t := timeOf(Get(Get(row, "log"), "createdAtISO").value);
            t.Some? && window.value.start <= t.value <= window.value.end)
      ==> r == Get(row, "log")
  {
    if !IsObject(row) || Get(row, "deviceId") != Some(JStr(deviceId)) then None
    else
      var log := Get(row, "log");
      var created := Get(log, "createdAtISO");
      if !Truthy(created) then None
      else if window.Some? then
        var t := timeOf(created.value);
        if t.Some? && window.value.start <= t.value <= window.value.end then log else None
      else log
  }

  /** The entries the lines contribute, in file order. */
  function Collect(lines: seq<string>, parse: string -> Option<Json>, deviceId: string,
                   window: Option<Window>, timeOf: Json -> Option<int>): (r: seq<Json>)
    ensures |r| <= |lines|
    decreases |lines|
  {
    if |lines| == 0 then []
    else
      var rest := Collect(lines[1..], parse, deviceId, window, timeOf);
      match Selected(parse(lines[0]), deviceId, window, timeOf)
      case None => rest
      case Some(log) => [log] + rest
  }

  /** Every line that is selected contributes its entry. */
  lemma {:induction false} CollectComplete(lines: seq<string>, parse: string -> Option<Json>, deviceId: string,
                                            window: Option<Window>, timeOf: Json -> Option<int>, i: int)
    requires 0 <= i < |lines| && Selected(parse(lines[i]), deviceId, window, timeOf).Some?
    ensures Selected(parse(lines[i]), deviceId, window, timeOf).value in Collect(lines, parse, deviceId, window, timeOf)
    decreases |lines|
  {
    if i > 0 {
      assert lines[i] == lines[1..][i - 1];
      CollectComplete(lines[1..], parse, deviceId, window, timeOf, i - 1);
    }
  }

  /** Every entry comes from a selected line. */
  lemma {:induction false} CollectSound(lines: seq<string>, parse: string -> Option<Json>, deviceId: string,
                                         window: Option<Window>, timeOf: Json -> Option<int>, k: int)
    requires 0 <= k < |Collect(lines, parse, deviceId, window, timeOf)|
    ensures exists i ::
      0 <= i < |lines| && Selected(parse(lines[i]), deviceId, window, timeOf) == Some(Collect(lines, parse, deviceId, window, timeOf)[k])
    decreases |lines|
  {
    var r := Collect(lines, parse, deviceId, window, timeOf);
    var rest := Collect(lines[1..], parse, deviceId, window, timeOf);
    var head := Selected(parse(lines[0]), deviceId, window, timeOf);
    if head.Some? && k == 0 {
      assert r[0] == head.value;
    } else {
      var j := if head.Some? then k - 1 else k;
      assert r[k] == rest[j];
      CollectSound(lines[1..], parse, deviceId, window, timeOf, j);
      var i :| 0 <= i < |lines[1..]| && Selected(parse(lines[1..][i]), deviceId, window, timeOf) == Some(rest[j]);
      assert lines[1..][i] == lines[i + 1];
    }
  }

  /** The sort key: `createdAtISO` when it is a string. */
  function CreatedKey(log: Json): string {
    AsString(Get(Some(log), "createdAtISO")).GetOr("")
  }

  /**
   * Query mode: the entries, newest first, cut to `limit` (clamped to
   * `[1, 5000]`; a NaN limit makes `slice(0, NaN)` return nothing).
   */
  function QueryLogs(entries: seq<Json>, limit: JsNum): (r: seq<Json>)
    ensures SortedDesc(r, CreatedKey)
    ensures multiset(r) <= multiset(entries)
    ensures var c := Clamp(limit, 1.0, 5000.0);
      |r| == if c.NaN? then 0 else Min(FloorOf(c.x), |entries|)
    ensures r == SortDesc(entries, CreatedKey)[..|r|]
  {
    var sorted := SortDesc(entries, CreatedKey);
    var c := Clamp(limit, 1.0, 5000.0);
    SliceHead(sorted, limit, 1, 5000);
    var r := Slice(sorted, Finite(0.0), Some(c));
    PrefixMultiset(sorted, |r|);
    r
  }

  /** Whatever the limit cuts off is no newer than anything returned. */
  lemma QueryKeepsNewest(entries: seq<Json>, limit: JsNum)
    ensures var r := QueryLogs(entries, limit);
      forall k, i :: 0 <= k < |r| && 0 <= i < |entries| && Less(CreatedKey(r[k]), CreatedKey(entries[i])) ==>
        entries[i] in r
  {
    NewestFirst(entries, CreatedKey, |QueryLogs(entries, limit)|);
  }

  /** One entry of the debug tail: the parsed line, or `{raw: line}` when it does not parse. */
  function TailEntry(line: string, parse: string -> Option<Json>): Json {
    match parse(line)
    case Some(v) => v
    case None => JObj(map["raw" := JStr(line)])
  }

  /** Debug mode: the last `n` lines (clamped to `[1, 200]`; a NaN count keeps them all). */
  function DebugTail(lines: seq<string>, n: JsNum, parse: string -> Option<Json>): (r: seq<Json>)
    ensures var c := Clamp(n, 1.0, 200.0);
      |r| == if c.NaN? then |lines| else Min(FloorOf(c.x), |lines|)
    ensures forall k :: 0 <= k < |r| ==> r[k] == TailEntry(lines[|lines| - |r| + k], parse)
  {
    SliceTail(lines, n, 1, 200);
    var last := Slice(lines, Negate(Clamp(n, 1.0, 200.0)), None);
    seq(|last|, k requires 0 <= k < |last| => TailEntry(last[k], parse))
  }

  /**
   * `GET`: query mode for a non-blank `deviceId`, debug mode otherwise; an
   * unreadable file gives an empty answer of the mode's shape.
   */
  function HandleGet(q: Query, raw: Option<string>, parse: string -> Option<Json>, timeOf: Json -> Option<int>): (r: GetReply)
    ensures r.Logs? <==> Trim(q.deviceId.GetOr("")) != ""
    ensures raw.None? ==> r == Logs([]) || r == Debug(0, [])
    ensures r.Logs? && raw.Some? ==>
      r.logs == QueryLogs(Collect(Lines(raw.value), parse, Trim(q.deviceId.GetOr("")),
                                  WindowOf(q.startISO, q.endISO, timeOf), timeOf),
                          q.limit.GetOr(Finite(500.0)))
    ensures r.Debug? && raw.Some? ==>
      r.count == |Lines(raw.value)| && r.tail == DebugTail(Lines(raw.value), q.n.GetOr(Finite(20.0)), parse)
  {
    var deviceId := Trim(q.deviceId.GetOr(""));
    match raw
    case None => if deviceId != "" then Logs([]) else Debug(0, [])
    case Some(text) =>
      var lines := Lines(text);
      if deviceId != "" then
        var window := WindowOf(q.startISO, q.endISO, timeOf);
        Logs(QueryLogs(Collect(lines, parse, deviceId, window, timeOf), q.limit.GetOr(Finite(500.0))))
      else
        Debug(|lines|, DebugTail(lines, q.n.GetOr(Finite(20.0)), parse))
  }

  /**
   * An entry the POST handler accepted is selected again by a query for the
   * same device: always without a window, and with one exactly when its
   * `createdAtISO` falls inside it.
   */
  lemma AcceptedEntryIsSelected(body: Option<Json>, nowISO: string, userAgent: Option<string>,
                                window: Option<Window>, timeOf: Json -> Option<int>)
    requires Acceptable(body)
    ensures var row := HandlePost(body, nowISO, userAgent, true).appended.value;
      var log := Get(body, "log").value;
      var t := timeOf(Get(Some(log), "createdAtISO").value);
      Selected(Some(RowJson(row)), DeviceIdOf(body), window, timeOf) ==
        if window.None? || (t.Some? && window.value.start <= t.value <= window.value.end) then Some(log) else None
  {
  }
}
