/** A sliding-window limit on requests, each key on its own. */
module RateLimiter {
  /** How many accepted requests lie within the last `window` before `now`. */
  function RecentHits(hits: seq<real>, window: real, now: real): nat {
    if |hits| == 0 then 0
    else RecentHits(hits[..|hits| - 1], window, now) + (if now - hits[|hits| - 1] < window then 1 else 0)
  }

  ghost predicate InOrder(hits: seq<real>) {
    forall i, j :: 0 <= i < j < |hits| ==> hits[i] <= hits[j]
  }

  /** Any two accepted requests `limit` places apart are at least a window apart in time. */
  ghost predicate Spaced(hits: seq<real>, limit: nat, window: real) {
    forall i :: 0 <= i < |hits| - limit ==> hits[i + limit] - hits[i] >= window
  }

  /** Once the first `gone` requests have left the window and the rest have not, the rest are counted. */
  lemma {:induction false} RecentAreTheRest(hits: seq<real>, window: real, now: real, gone: nat)
    requires gone <= |hits|
    requires forall i :: 0 <= i < gone ==> now - hits[i] >= window
    requires forall i :: gone <= i < |hits| ==> now - hits[i] < window
    ensures RecentHits(hits, window, now) == |hits| - gone
  {
    if |hits| > 0 {
      var front := hits[..|hits| - 1];
      if gone == |hits| {
        RecentAreTheRest(front, window, now, gone - 1);
      } else {
        RecentAreTheRest(front, window, now, gone);
      }
    }
  }

  /** Accepting only below the limit keeps the spacing. */
  lemma {:induction false} AcceptKeepsSpacing(hits: seq<real>, limit: nat, window: real, now: real, gone: nat)
    requires Spaced(hits, limit, window) && gone <= |hits| && |hits| - gone < limit
    requires forall i :: 0 <= i < gone ==> now - hits[i] >= window
    ensures Spaced(hits + [now], limit, window)
  {
    var longer := hits + [now];
    forall i | 0 <= i < |longer| - limit ensures longer[i + limit] - longer[i] >= window {
      if i + limit == |hits| {
        assert longer[i + limit] == now && i < gone;
      }
    }
  }

  /** What is kept is a suffix of what was accepted, and what was dropped has left the window. */
  ghost predicate Tracks(all: seq<real>, kept: seq<real>, limit: nat, window: real, clock: real) {
    && |kept| <= |all| && kept == all[|all| - |kept|..]
    && InOrder(all) && Spaced(all, limit, window)
    && (forall i :: 0 <= i < |all| ==> all[i] <= clock)
    && (forall i :: 0 <= i < |all| - |kept| ==> clock - all[i] >= window)
  }

  lemma {:induction false} TracksLater(
    all: seq<real>, kept: seq<real>, limit: nat, window: real, clock: real, now: real)
    requires Tracks(all, kept, limit, window, clock) && clock <= now
    ensures Tracks(all, kept, limit, window, now)
  {
  }

  lemma {:induction false} TracksWithoutFirst(all: seq<real>, kept: seq<real>, limit: nat, window: real, now: real)
    requires Tracks(all, kept, limit, window, now) && |kept| > 0 && now - kept[0] >= window
    ensures Tracks(all, kept[1..], limit, window, now)
  {
    assert kept[0] == all[|all| - |kept|];
  }

  lemma {:induction false} TracksOneMore(all: seq<real>, kept: seq<real>, limit: nat, window: real, now: real)
    requires Tracks(all, kept, limit, window, now) && |kept| < limit
    ensures Tracks(all + [now], kept + [now], limit, window, now)
  {
    AcceptKeepsSpacing(all, limit, window, now, |all| - |kept|);
    assert (all + [now])[|all| - |kept|..] == kept + [now];
  }

  /** When the oldest request that is kept lies in the window, exactly those in the window are kept. */
  lemma {:induction false} KeptAreRecent(all: seq<real>, kept: seq<real>, limit: nat, window: real, now: real)
    requires Tracks(all, kept, limit, window, now) && (|kept| > 0 ==> now - kept[0] < window)
    ensures RecentHits(all, window, now) == |kept|
  {
    var gone := |all| - |kept|;
    forall i | gone <= i < |all| ensures now - all[i] < window {
      assert all[i] == kept[i - gone] && kept[0] == all[gone];
    }
    RecentAreTheRest(all, window, now, gone);
  }

  /** An absent key has no requests. */
  function Of(m: map<string, seq<real>>, key: string): seq<real> {
    if key in m then m[key] else []
  }

  ghost predicate AllTracked(
    accepted: map<string, seq<real>>, recent: map<string, seq<real>>, limit: nat, window: real, clock: real)
  {
    forall key :: Tracks(Of(accepted, key), Of(recent, key), limit, window, clock)
  }

  /** One key moves on; the others only grow older. */
  lemma {:induction false} OneKeyMoves(
    accepted: map<string, seq<real>>, recent: map<string, seq<real>>, limit: nat, window: real, clock: real,
    now: real, key: string, all: seq<real>, kept: seq<real>)
    requires AllTracked(accepted, recent, limit, window, clock) && clock <= now && Tracks(all, kept, limit, window, now)
    ensures AllTracked(accepted[key := all], recent[key := kept], limit, window, now)
  {
    var a, r := accepted[key := all], recent[key := kept];
    forall other ensures Tracks(Of(a, other), Of(r, other), limit, window, now) {
      if other != key {
        TracksLater(Of(accepted, other), Of(recent, other), limit, window, clock, now);
      }
    }
  }

  /** The accepted requests of a key after one more request. */
  function NextAccepted(limit: nat, window: real, before: seq<real>, now: real): seq<real> {
    if RecentHits(before, window, now) < limit then before + [now] else before
  }

  /** What is kept after a request, once the expired ones are gone. */
  function NextKept(limit: nat, hits: seq<real>, now: real): seq<real> {
    if |hits| < limit then hits + [now] else hits
  }

  lemma {:induction false} NextIsTracked(all: seq<real>, hits: seq<real>, limit: nat, window: real, now: real)
    requires Tracks(all, hits, limit, window, now) && (|hits| > 0 ==> now - hits[0] < window)
    ensures |hits| < limit <==> RecentHits(all, window, now) < limit
    ensures Tracks(NextAccepted(limit, window, all, now), NextKept(limit, hits, now), limit, window, now)
  {
    KeptAreRecent(all, hits, limit, window, now);
    if |hits| < limit {
      TracksOneMore(all, hits, limit, window, now);
    }
  }

  /** One request, accepted or not, decided by what is kept, moves its own key and keeps all in order. */
  lemma {:induction false} RequestMovesOneKey(
    accepted: map<string, seq<real>>, recent: map<string, seq<real>>, limit: nat, window: real, clock: real,
    now: real, key: string, hits: seq<real>)
    requires AllTracked(accepted, recent, limit, window, clock) && clock <= now
    requires Tracks(Of(accepted, key), hits, limit, window, now) && (|hits| > 0 ==> now - hits[0] < window)
    ensures |hits| < limit <==> RecentHits(Of(accepted, key), window, now) < limit
    ensures AllTracked(accepted[key := NextAccepted(limit, window, Of(accepted, key), now)],
                       recent[key := NextKept(limit, hits, now)], limit, window, now)
  {
    NextIsTracked(Of(accepted, key), hits, limit, window, now);
    OneKeyMoves(accepted, recent, limit, window, clock, now, key,
                NextAccepted(limit, window, Of(accepted, key), now), NextKept(limit, hits, now));
  }

  class RequestRateLimiter {
    const limit: nat
    const window: real
    var recent: map<string, seq<real>>
    /** Every request ever accepted. */
    ghost var accepted: map<string, seq<real>>
    ghost var clock: real

    ghost predicate Valid()
      reads this
    {
      AllTracked(accepted, recent, limit, window, clock)
    }

    constructor (limit: nat, window: real, now: real)
      ensures Valid() && this.limit == limit && this.window == window && accepted == map[] && clock == now
    {
      this.limit := limit;
      this.window := window;
      recent, accepted, clock := map[], map[], now;
    }

    /** The kept requests of a key, without those that have left the window. */
    method Expire(key: string, now: real) returns (hits: seq<real>)
      requires Valid() && clock <= now
      ensures Tracks(Of(accepted, key), hits, limit, window, now) && (|hits| > 0 ==> now - hits[0] < window)
    {
      ghost var all := Of(accepted, key);
      hits := Of(recent, key);
      TracksLater(all, hits, limit, window, clock, now);
      while |hits| > 0 && now - hits[0] >= window
        invariant Tracks(all, hits, limit, window, now)
      {
        TracksWithoutFirst(all, hits, limit, window, now);
        hits := hits[1..];
      }
    }

    /**
     * The request is accepted exactly when fewer than `limit` accepted requests of its key lie
     * within the last window, and only an accepted request is remembered.
     */
    method Allow(key: string, now: real) returns (allowed: bool)
      requires Valid() && clock <= now
      modifies this
      ensures Valid() && clock == now
      ensures allowed <==> RecentHits(Of(old(accepted), key), window, now) < limit
      ensures accepted == old(accepted)[key := NextAccepted(limit, window, Of(old(accepted), key), now)]
    {
      var hits := Expire(key, now);
      RequestMovesOneKey(accepted, recent, limit, window, clock, now, key, hits);
      allowed := |hits| < limit;
      if allowed {
        hits := hits + [now];
      }
      recent := recent[key := hits];
      accepted, clock := accepted[key := NextAccepted(limit, window, Of(accepted, key), now)], now;
    }
  }

  // ---------------------------------------------------------------------
  // Whole histories of requests
  // ---------------------------------------------------------------------

  /** Which of these requests for one key are accepted, in order. */
  function AcceptedOf(limit: nat, window: real, requests: seq<real>): seq<real> {
    if |requests| == 0 then []
    else NextAccepted(limit, window, AcceptedOf(limit, window, requests[..|requests| - 1]), requests[|requests| - 1])
  }

  lemma {:induction false} RecentSplit(hits: seq<real>, window: real, now: real) returns (gone: nat)
    requires InOrder(hits)
    ensures gone <= |hits| && RecentHits(hits, window, now) == |hits| - gone
    ensures forall i :: 0 <= i < gone ==> now - hits[i] >= window
  {
    gone := 0;
    while gone < |hits| && now - hits[gone] >= window
      invariant gone <= |hits| && forall i :: 0 <= i < gone ==> now - hits[i] >= window
    {
      gone := gone + 1;
    }
    RecentAreTheRest(hits, window, now, gone);
  }

  ghost predicate NoLaterThan(hits: seq<real>, now: real) {
    forall i :: 0 <= i < |hits| ==> hits[i] <= now
  }

  lemma {:induction false} NextKeepsSpacing(limit: nat, window: real, before: seq<real>, now: real)
    requires Spaced(before, limit, window) && InOrder(before) && NoLaterThan(before, now)
    ensures var hits := NextAccepted(limit, window, before, now);
            Spaced(hits, limit, window) && InOrder(hits) && NoLaterThan(hits, now)
  {
    var gone := RecentSplit(before, window, now);
    if |before| - gone < limit {
      AcceptKeepsSpacing(before, limit, window, now, gone);
    }
  }

  lemma {:induction false} LastIsLatest(requests: seq<real>, hits: seq<real>, earlier: real)
    requires InOrder(requests) && |requests| > 0 && NoLaterThan(hits, earlier)
    requires |requests| > 1 ==> earlier == requests[|requests| - 2]
    requires |requests| == 1 ==> hits == []
    ensures NoLaterThan(hits, requests[|requests| - 1])
  {
  }

  /** However requests arrive, accepted ones `limit` places apart are a window apart: none ever holds more. */
  lemma {:induction false} NeverTooMany(limit: nat, window: real, requests: seq<real>)
    requires InOrder(requests)
    ensures var hits := AcceptedOf(limit, window, requests);
            && Spaced(hits, limit, window) && InOrder(hits)
            && NoLaterThan(hits, if |requests| == 0 then 0.0 else requests[|requests| - 1])
  {
    if |requests| > 0 {
      var front, now := requests[..|requests| - 1], requests[|requests| - 1];
      NeverTooMany(limit, window, front);
      var before := AcceptedOf(limit, window, front);
      LastIsLatest(requests, before, if |front| == 0 then 0.0 else front[|front| - 1]);
      NextKeepsSpacing(limit, window, before, now);
    }
  }
}
