/** The rate limit on cache invalidation that both session classes apply:
  * a request at time `now` invalidates only if more than `interval`
  * milliseconds have passed since the last invalidation. */
module RateLimit {

  /** Whether a request at `now` invalidates, given the last invalidation time. */
  predicate Invalidates(lastClean: int, now: int, interval: nat)
  {
    now > lastClean + interval
  }

  /** The times, among successive requests, at which an invalidation happens. */
  function InvalidationTimes(lastClean: int, requests: seq<int>, interval: nat): (r: seq<int>)
    ensures |r| <= |requests|
    ensures forall k :: 0 <= k < |r| ==> r[k] in requests
    decreases |requests|
  {
    if requests == [] then []
    else if Invalidates(lastClean, requests[0], interval) then
      [requests[0]] + InvalidationTimes(requests[0], requests[1..], interval)
    else
      InvalidationTimes(lastClean, requests[1..], interval)
  }

  /** However the requests arrive, two invalidations are always more than
    * `interval` apart, and the first is more than `interval` after the start. */
  lemma {:induction false} InvalidationsAreSpaced(lastClean: int, requests: seq<int>, interval: nat)
    ensures var r := InvalidationTimes(lastClean, requests, interval);
      && (|r| > 0 ==> r[0] > lastClean + interval)
      && forall k :: 0 <= k < |r| - 1 ==> r[k + 1] > r[k] + interval
    decreases |requests|
  {
    if requests != [] {
      if Invalidates(lastClean, requests[0], interval) {
        InvalidationsAreSpaced(requests[0], requests[1..], interval);
      } else {
        InvalidationsAreSpaced(lastClean, requests[1..], interval);
      }
    }
  }

  /** A burst of requests within `interval` of a first invalidation causes no other. */
  lemma {:induction false} BurstInvalidatesOnce(lastClean: int, requests: seq<int>, interval: nat)
    requires |requests| > 0 && Invalidates(lastClean, requests[0], interval)
    requires forall k :: 0 <= k < |requests| ==> requests[k] <= requests[0] + interval
    ensures InvalidationTimes(lastClean, requests, interval) == [requests[0]]
  {
    NoneAfter(requests[0], requests[1..], interval);
  }

  lemma {:induction false} NoneAfter(lastClean: int, requests: seq<int>, interval: nat)
    requires forall k :: 0 <= k < |requests| ==> requests[k] <= lastClean + interval
    ensures InvalidationTimes(lastClean, requests, interval) == []
    decreases |requests|
  {
    if requests != [] {
      NoneAfter(lastClean, requests[1..], interval);
    }
  }
}
