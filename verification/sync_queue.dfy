/**
 * The pending-sync outbox of `mobile/src/storage/sync.ts`: entries whose
 * upload failed wait in a capped, id-deduplicated queue, newest first, and a
 * flush uploads them in order until the first failure. The stored queue and
 * the outcome of every upload attempt are parameters.
 */
module SyncQueue {
  import opened Wrappers
  import opened Types

  /** The safety cap on the queue length. */
  const QueueCap: nat := 2000

  predicate HasId(q: seq<DailyLog>, id: string) {
    exists k :: 0 <= k < |q| && q[k].id == id
  }

  /** No two queued entries share an id. */
  predicate UniqueIds(q: seq<DailyLog>) {
    forall i, j :: 0 <= i < j < |q| ==> q[i].id != q[j].id
  }

  /** `enqueue`: a no-op when the id is queued, otherwise the entry goes in front and the tail beyond the cap is dropped. */
  function Enqueue(q: seq<DailyLog>, log: DailyLog): (r: seq<DailyLog>)
    ensures HasId(q, log.id) ==> r == q
    ensures !HasId(q, log.id) ==> |r| == if |q| + 1 <= QueueCap then |q| + 1 else QueueCap
    ensures !HasId(q, log.id) ==> r[0] == log && r[1..] == q[..|r| - 1]
    ensures HasId(r, log.id)
  {
    if HasId(q, log.id) then q
    else
      var full := [log] + q;
      var r := if |full| <= QueueCap then full else full[..QueueCap];
      assert r[0] == log;
      r
  }

  /** Enqueueing the same entry twice is the same as enqueueing it once. */
  lemma EnqueueIdempotent(q: seq<DailyLog>, log: DailyLog)
    ensures Enqueue(Enqueue(q, log), log) == Enqueue(q, log)
  {
  }

  /** Enqueueing keeps ids unique and the queue within the cap. */
  lemma EnqueueKeepsInvariant(q: seq<DailyLog>, log: DailyLog)
    requires UniqueIds(q) && |q| <= QueueCap
    ensures UniqueIds(Enqueue(q, log)) && |Enqueue(q, log)| <= QueueCap
  {
    var r := Enqueue(q, log);
    if !HasId(q, log.id) {
      forall i, j | 0 <= i < j < |r|
        ensures r[i].id != r[j].id
      {
        if i == 0 {
          assert r[j] == q[j - 1];
        } else {
          assert r[i] == q[i - 1] && r[j] == q[j - 1];
        }
      }
    }
  }

  /** The batch size of a flush: `min(max(max ?? 30, 1), 200)`. */
  function BatchSize(requested: Option<int>): (n: int)
    ensures 1 <= n <= 200
    ensures requested.None? ==> n == 30
    ensures requested.Some? && 1 <= requested.value <= 200 ==> n == requested.value
  {
    var m := requested.GetOr(30);
    var lo := if m < 1 then 1 else m;
    if lo > 200 then 200 else lo
  }

  /** What a flush returns, the queue it leaves, and whether it rewrote storage. */
  datatype FlushResult = FlushResult(sent: nat, pending: nat, queue: seq<DailyLog>, rewritten: bool)

  /**
   * `flushPendingSync`: `delivered(i)` says whether uploading the `i`-th queued
   * entry succeeds. Exactly the first `sent` entries leave the queue: every one
   * of them was delivered, and the next one either failed or the batch was full.
   */
  method FlushPendingSync(q: seq<DailyLog>, max: int, delivered: nat -> bool) returns (r: FlushResult)
    ensures r.sent <= |q| && (r.sent <= max || r.sent == 0)
    ensures r.queue == q[r.sent..]
    ensures r.pending == |r.queue| && r.sent + r.pending == |q|
    ensures forall i :: 0 <= i < r.sent ==> delivered(i)
    ensures r.sent < |q| && r.sent < max ==> !delivered(r.sent)
    ensures r.rewritten <==> r.sent > 0
  {
    if |q| == 0 {
      return FlushResult(0, 0, q, false);
    }
    var sent: nat := 0;
    var next: seq<DailyLog> := [];
    var i := 0;
    var stopped := false;
    while i < |q| && !stopped
      invariant 0 <= sent <= i <= |q|
      invariant sent <= max || sent == 0
      invariant forall k :: 0 <= k < sent ==> delivered(k)
      invariant !stopped ==> next == q[sent..i] && (sent == i || sent >= max)
      invariant stopped ==> next == q[sent..] && sent < max && !delivered(sent)
      decreases |q| - i, if stopped then 0 else 1
    {
      var item := q[i];
      if sent >= max {
        next := next + [item];
        i := i + 1;
      } else if delivered(i) {
        sent := sent + 1;
        i := i + 1;
      } else {
        next := next + [item] + q[i + 1..];
        stopped := true;
      }
    }
    var rewritten := |next| != |q|;
    r := FlushResult(sent, |next|, next, rewritten);
  }

  /** `syncLogToServer`: a delivered upload leaves the queue alone; a failed one enqueues the entry. */
  function SyncLogToServer(q: seq<DailyLog>, log: DailyLog, delivered: bool): (r: seq<DailyLog>)
    ensures delivered ==> r == q
    ensures !delivered ==> r == Enqueue(q, log) && HasId(r, log.id)
  {
    if delivered then q else Enqueue(q, log)
  }
}
