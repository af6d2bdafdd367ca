/**
 * `mobile/src/lib/apiBase.ts`: the base URL the app sends its sync calls to.
 * `origin` is `window.location.origin` on the web and `None` where there is
 * no window (the native app).
 */
module ApiBase {
  import opened Wrappers
  import opened Text

  const Production := "https://myeverything.kr"
  const NextDev := "http://localhost:3000"

  /** The Expo web development servers, which serve no `/sync` routes. */
  predicate IsExpoWebDev(origin: string) {
    Contains(origin, "localhost:8081") || Contains(origin, "127.0.0.1:8081")
    || Contains(origin, "localhost:19006") || Contains(origin, "127.0.0.1:19006")
  }

  function GetApiBase(origin: Option<string>): (r: string)
    ensures StartsWith(r, "http")
    ensures origin.None? ==> r == Production
    ensures origin.Some? && !StartsWith(origin.value, "http") ==> r == Production
    ensures origin.Some? && StartsWith(origin.value, "http") ==>
      r == (if IsExpoWebDev(origin.value) then NextDev else origin.value)
  {
    match origin
    case Some(o) =>
      if StartsWith(o, "http") then (if IsExpoWebDev(o) then NextDev else o)
      else Production
    case None => Production
  }

  /** Neither fallback is an Expo dev origin: neither has an `8` or a `9` in it. */
  lemma FallbacksNotExpoDev()
    ensures !IsExpoWebDev(Production) && !IsExpoWebDev(NextDev)
  {
    AbsentCharNotContained(Production, "localhost:8081", 10);
    AbsentCharNotContained(Production, "127.0.0.1:8081", 10);
    AbsentCharNotContained(Production, "localhost:19006", 11);
    AbsentCharNotContained(Production, "127.0.0.1:19006", 11);
    AbsentCharNotContained(NextDev, "localhost:8081", 10);
    AbsentCharNotContained(NextDev, "127.0.0.1:8081", 10);
    AbsentCharNotContained(NextDev, "localhost:19006", 11);
    AbsentCharNotContained(NextDev, "127.0.0.1:19006", 11);
  }

  /**
   * The base is a fixed point: used as an origin it is its own base, so a
   * page served from the base the app picked calls that same server.
   */
  lemma BaseIdempotent(origin: Option<string>)
    ensures GetApiBase(Some(GetApiBase(origin))) == GetApiBase(origin)
  {
    FallbacksNotExpoDev();
  }
}
