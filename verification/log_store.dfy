/**
 * The local diary store of `mobile/src/storage/logs.ts`. The stored list is
 * passed in and out; the new entry's id and creation time (from the random id
 * generator and the clock) are parameters.
 */
module LogStore {
  import opened Wrappers
  import opened Text
  import opened Types
  import opened Sorting
  import Emotion

  function CreatedAt(l: DailyLog): string {
    l.createdAtISO
  }

  /** An entry whose label and summary are the classifier's verdict on its own content. */
  predicate Classified(l: DailyLog) {
    var e := Emotion.Analyze(l.content);
    l.emotion == e.emotion && l.emotionSummary == e.summary
  }

  datatype Added = Added(log: DailyLog, stored: seq<DailyLog>)

  /**
   * `addLog`: the new entry (trimmed content, classified) goes in front of the
   * stored list and nothing else changes.
   */
  function AddLog(stored: seq<DailyLog>, content: string, id: string, nowISO: string): (r: Added)
    ensures r.stored == [r.log] + stored
    ensures r.log.id == id && r.log.createdAtISO == nowISO && r.log.content == Trim(content)
    ensures r.log.emotion == Emotion.Analyze(content).emotion
    ensures r.log.emotionSummary == Emotion.Analyze(content).summary
    ensures Classified(r.log)
  {
    var emo := Emotion.Analyze(content);
    var log := DailyLog(id, nowISO, Trim(content), emo.emotion, emo.summary);
    Emotion.AnalyzeTrimmed(content);
    Added(log, [log] + stored)
  }

  /** Every stored entry is classified, and adding one keeps it so. */
  lemma AddLogKeepsClassified(stored: seq<DailyLog>, content: string, id: string, nowISO: string)
    requires forall k :: 0 <= k < |stored| ==> Classified(stored[k])
    ensures var r := AddLog(stored, content, id, nowISO).stored;
      forall k :: 0 <= k < |r| ==> Classified(r[k])
  {
    var r := AddLog(stored, content, id, nowISO).stored;
    forall k | 0 <= k < |r|
      ensures Classified(r[k])
    {
      if k > 0 {
        assert r[k] == stored[k - 1];
      }
    }
  }

  /** `loadLogs`: the stored entries, newest `createdAtISO` first. */
  function LoadLogs(stored: seq<DailyLog>): (r: seq<DailyLog>)
    ensures multiset(r) == multiset(stored)
    ensures forall i, j :: 0 <= i < j < |r| ==> !Less(r[i].createdAtISO, r[j].createdAtISO)
  {
    SortDesc(stored, CreatedAt)
  }

  /** The first entry of `logs` with the id, if any (`find`). */
  function FindById(logs: seq<DailyLog>, id: string): (r: Option<DailyLog>)
    ensures r.Some? ==> r.value in logs && r.value.id == id
    ensures r.None? <==> forall k :: 0 <= k < |logs| ==> logs[k].id != id
    ensures r.Some? ==> exists k :: 0 <= k < |logs| && logs[k] == r.value && forall j :: 0 <= j < k ==> logs[j].id != id
    decreases |logs|
  {
    if |logs| == 0 then None
    else if logs[0].id == id then Some(logs[0])
    else
      var r := FindById(logs[1..], id);
      assert forall k :: 1 <= k < |logs| ==> logs[k] == logs[1..][k - 1];
      assert r.Some? ==> exists k :: 0 <= k < |logs| && logs[k] == r.value && forall j :: 0 <= j < k ==> logs[j].id != id by {
        if r.Some? {
          var k :| 0 <= k < |logs[1..]| && logs[1..][k] == r.value && forall j :: 0 <= j < k ==> logs[1..][j].id != id;
          assert logs[k + 1] == r.value;
          assert forall j :: 0 <= j < k + 1 ==> logs[j].id != id by {
            forall j | 0 <= j < k + 1
              ensures logs[j].id != id
            {
              if j > 0 { assert logs[j] == logs[1..][j - 1]; }
            }
          }
        }
      }
      r
  }

  /** `getLogById`: an entry with that id when one is stored, otherwise nothing. */
  function GetLogById(stored: seq<DailyLog>, id: string): (r: Option<DailyLog>)
    ensures r.Some? ==> r.value in stored && r.value.id == id
    ensures r.None? <==> forall k :: 0 <= k < |stored| ==> stored[k].id != id
  {
    SameIds(stored, id);
    FindById(LoadLogs(stored), id)
  }

  lemma SameIds(stored: seq<DailyLog>, id: string)
    ensures (forall k :: 0 <= k < |LoadLogs(stored)| ==> LoadLogs(stored)[k].id != id)
        <==> (forall k :: 0 <= k < |stored| ==> stored[k].id != id)
    ensures forall x :: x in LoadLogs(stored) ==> x in stored
  {
    var sorted := LoadLogs(stored);
    forall k | 0 <= k < |stored|
      ensures stored[k] in sorted
    {
      assert stored[k] in multiset(stored);
    }
    forall k | 0 <= k < |sorted|
      ensures sorted[k] in stored
    {
      assert sorted[k] in multiset(sorted);
    }
  }
}
