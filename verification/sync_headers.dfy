/**
 * `mobile/src/lib/syncHeaders.ts`: the headers every sync call carries. The
 * device id (from device storage) and the build-time environment value are
 * parameters.
 */
module SyncHeaders {
  import opened Wrappers
  import opened Text

  /** The trimmed sync key, when the environment holds a non-blank string. */
  function GetSyncKey(env: Option<string>): (r: Option<string>)
    ensures r.Some? <==> env.Some? && Trim(env.value) != ""
    ensures r.Some? ==> r.value == Trim(env.value) && IsTrimmed(r.value) && r.value != ""
  {
    match env
    case Some(k) => if Trim(k) != "" then Some(Trim(k)) else None
    case None => None
  }

  datatype SyncAuth = SyncAuth(deviceId: string, headers: map<string, string>)

  function GetSyncAuth(deviceId: string, env: Option<string>): (r: SyncAuth)
    ensures r.deviceId == deviceId
    ensures "x-device-id" in r.headers && r.headers["x-device-id"] == deviceId
    ensures "authorization" in r.headers <==> GetSyncKey(env).Some?
    ensures "x-sync-key" in r.headers <==> GetSyncKey(env).Some?
    ensures GetSyncKey(env).Some? ==>
      r.headers["authorization"] == "Bearer " + GetSyncKey(env).value
      && r.headers["x-sync-key"] == GetSyncKey(env).value
    ensures r.headers.Keys <= {"x-device-id", "authorization", "x-sync-key"}
  {
    var base := map["x-device-id" := deviceId];
    match GetSyncKey(env)
    case Some(key) => SyncAuth(deviceId, base["authorization" := "Bearer " + key]["x-sync-key" := key])
    case None => SyncAuth(deviceId, base)
  }

  /** Surrounding whitespace in the configured key does not change the headers. */
  lemma KeyIgnoresPadding(deviceId: string, w1: string, k: string, w2: string)
    requires AllSpace(w1) && AllSpace(w2)
    ensures GetSyncAuth(deviceId, Some(w1 + k + w2)) == GetSyncAuth(deviceId, Some(k))
  {
    TrimIgnoresPadding(w1, k, w2);
  }
}
