/** The fixed-window limiter as a trace of timed requests on one key. */
module RateLimit {
  import opened Sums
  import opened Tables

  /** A key's value and when its expiry was set; INCR and EXPIRE are applied together. */
  datatype Counter = Counter(count: pos, started: Instant)

  /** `gone` says whether a key whose lifetime ends at this very instant is already gone. */
  datatype Request = Request(at: Instant, gone: bool)

  predicate Starts(c: Option<Counter>, r: Request, window: pos) {
    || c.None? || r.at > c.value.started + window
    || (r.at == c.value.started + window && r.gone)
  }

  /** INCR, and EXPIRE when the count is 1 */
  function Incremented(c: Option<Counter>, r: Request, window: pos): Counter {
    if Starts(c, r, window) then Counter(1, r.at) else c.value.(count := c.value.count + 1)
  }

  /** A key without a live lifetime starts one at this request; any other counts on in the one it has. */
  lemma CountAnswers(c: Option<Counter>, r: Request, window: pos)
    ensures var live := c.Some? && (r.at < c.value.started + window || (r.at == c.value.started + window && !r.gone));
      Incremented(c, r, window) == if live then Counter(c.value.count + 1, c.value.started) else Counter(1, r.at)
  {
  }

  class Limiter {
    var counters: map<string, Counter>

    constructor ()
      ensures counters == map[]
    {
      counters := map[];
    }

    function Lookup(key: string): Option<Counter>
      reads this
    {
      if key in counters then Some(counters[key]) else None
    }

    /** `enforce_rate_limit`: whether the request passes; only its own key is touched. */
    method EnforceRateLimit(key: string, limit: nat, window: pos, r: Request) returns (passes: bool)
      modifies this
      ensures Lookup(key) == Some(Incremented(old(Lookup(key)), r, window))
      ensures passes <==> Incremented(old(Lookup(key)), r, window).count <= limit
      ensures forall k :: k != key ==> Lookup(k) == old(Lookup(k))
    {
      var found := Lookup(key);
      if found.Some? && Starts(found, r, window) {
        found := None;
      }
      var count: pos := if found.None? then 1 else found.value.count + 1;
      counters := counters[key := Counter(count, if count == 1 then r.at else found.value.started)];
      passes := count <= limit;
    }
  }

  // ------------------------------------------------------------------- traces

  predicate InOrder(rs: seq<Request>) {
    forall i, k :: 0 <= i < k < |rs| ==> rs[i].at <= rs[k].at
  }

  function After(rs: seq<Request>, window: pos): Option<Counter> {
    if rs == [] then None else Some(Incremented(After(rs[..|rs| - 1], window), rs[|rs| - 1], window))
  }

  /** Which lifetime of the key the last request fell into, counted from 1. */
  function Lifetime(rs: seq<Request>, window: pos): nat {
    if rs == [] then 0
    else
      var before := rs[..|rs| - 1];
      Lifetime(before, window) + (if Starts(After(before, window), rs[|rs| - 1], window) then 1 else 0)
  }

  /** Whether the last request passes. */
  predicate Passes(rs: seq<Request>, limit: nat, window: pos)
    requires rs != []
  {
    After(rs, window).value.count <= limit
  }

  /** Requests that passed in lifetime `life`. */
  function PassedInLifetime(rs: seq<Request>, limit: nat, window: pos, life: nat): nat {
    if rs == [] then 0
    else PassedInLifetime(rs[..|rs| - 1], limit, window, life)
         + (if Lifetime(rs, window) == life && Passes(rs, limit, window) then 1 else 0)
  }

  /** Requests that passed in [from, to). */
  function PassedBetween(rs: seq<Request>, limit: nat, window: pos, from: Instant, to: Instant): nat {
    if rs == [] then 0
    else PassedBetween(rs[..|rs| - 1], limit, window, from, to)
         + (if from <= rs[|rs| - 1].at < to && Passes(rs, limit, window) then 1 else 0)
  }

  // ------------------------------------------------------------------ theorems

  /** A lifetime admits exactly the smaller of its requests and the limit. */
  lemma {:induction false} LifetimeAdmits(rs: seq<Request>, limit: nat, window: pos, life: nat)
    ensures PassedInLifetime(rs, limit, window, life) <= limit
    ensures life > Lifetime(rs, window) ==> PassedInLifetime(rs, limit, window, life) == 0
    ensures rs != [] && life == Lifetime(rs, window) ==>
      PassedInLifetime(rs, limit, window, life) == Min(After(rs, window).value.count, limit)
    ensures rs != [] ==> Lifetime(rs, window) > 0
  {
    if rs != [] {
      LifetimeAdmits(rs[..|rs| - 1], limit, window, life);
    }
  }

  lemma {:induction false} LifetimesGrow(rs: seq<Request>, window: pos, i: nat)
    requires i <= |rs|
    ensures Lifetime(rs[..i], window) <= Lifetime(rs, window)
    decreases |rs|
  {
    if i < |rs| {
      LifetimesGrow(rs[..|rs| - 1], window, i);
      assert rs[..|rs| - 1][..i] == rs[..i];
    } else {
      assert rs[..i] == rs;
    }
  }

  /** A request of an earlier lifetime came no later than the current lifetime started. */
  lemma {:induction false} EarlierLifetime(rs: seq<Request>, window: pos, i: nat)
    requires InOrder(rs) && i < |rs| && Lifetime(rs[..i + 1], window) < Lifetime(rs, window)
    ensures rs[i].at <= After(rs, window).value.started
    decreases |rs|
  {
    var before := rs[..|rs| - 1];
    assert rs[..|rs|] == rs;
    if i + 1 < |rs| && !Starts(After(before, window), rs[|rs| - 1], window) {
      assert before[..i + 1] == rs[..i + 1];
      EarlierLifetime(before, window, i);
    }
  }

  /** Two lifetimes later means at least one window later. */
  lemma {:induction false} TwoLifetimesLater(rs: seq<Request>, window: pos, i: nat)
    requires InOrder(rs) && i < |rs| && Lifetime(rs[..i + 1], window) + 2 <= Lifetime(rs, window)
    ensures rs[|rs| - 1].at >= rs[i].at + window
    decreases |rs|
  {
    var before := rs[..|rs| - 1];
    assert rs[..|rs|] == rs;
    if i + 1 < |rs| {
      assert before[..i + 1] == rs[..i + 1];
      if Starts(After(before, window), rs[|rs| - 1], window) {
        EarlierLifetime(before, window, i);
      } else {
        TwoLifetimesLater(before, window, i);
      }
    }
  }

  /** Requests of the two lifetimes that passed before the interval. */
  function PassedAside(rs: seq<Request>, limit: nat, window: pos, from: Instant, life: pos): nat {
    if rs == [] then 0
    else
      var n := Lifetime(rs, window);
      PassedAside(rs[..|rs| - 1], limit, window, from, life)
        + (if rs[|rs| - 1].at < from && (n == life || n == life - 1) && Passes(rs, limit, window) then 1 else 0)
  }

  /** All that passed in an interval belongs to the two lifetimes `life` and `life - 1`, if no request
      of the interval is older, and is no more than what they leave it. */
  lemma {:induction false} IntervalByLifetimes(rs: seq<Request>, limit: nat, window: pos, from: Instant, to: Instant, life: pos)
    requires WithinLifetimes(rs, window, from, to, life)
    ensures PassedBetween(rs, limit, window, from, to) + PassedAside(rs, limit, window, from, life)
         <= PassedInLifetime(rs, limit, window, life) + PassedInLifetime(rs, limit, window, life - 1)
  {
    if rs != [] {
      var n := |rs| - 1;
      WithinShorter(rs, window, from, to, life);
      IntervalByLifetimes(rs[..n], limit, window, from, to, life);
      assert rs[..n + 1] == rs;
    }
  }

  predicate WithinLifetimes(rs: seq<Request>, window: pos, from: Instant, to: Instant, life: pos) {
    forall i :: 0 <= i < |rs| && from <= rs[i].at < to ==> life - 1 <= Lifetime(rs[..i + 1], window) <= life
  }

  lemma WithinShorter(rs: seq<Request>, window: pos, from: Instant, to: Instant, life: pos)
    requires rs != [] && WithinLifetimes(rs, window, from, to, life)
    ensures WithinLifetimes(rs[..|rs| - 1], window, from, to, life)
  {
    var n := |rs| - 1;
    forall i | 0 <= i < n && from <= rs[..n][i].at < to ensures life - 1 <= Lifetime(rs[..n][..i + 1], window) <= life {
      assert rs[..n][..i + 1] == rs[..i + 1];
    }
  }

  /** A request of the earlier lifetime that passed before the interval leaves it one less. */
  lemma {:induction false} OnePassedBefore(rs: seq<Request>, limit: nat, window: pos, from: Instant, life: pos, f: nat)
    requires f < |rs| && rs[f].at < from
    requires Lifetime(rs[..f + 1], window) == life - 1 && Passes(rs[..f + 1], limit, window)
    ensures PassedAside(rs, limit, window, from, life) >= 1
    decreases |rs|
  {
    var n := |rs| - 1;
    assert rs[..n + 1] == rs;
    if f < n {
      assert rs[..n][..f + 1] == rs[..f + 1];
      OnePassedBefore(rs[..n], limit, window, from, life, f);
    }
  }

  /** Every lifetime so far was opened by some request, which found the count at one. */
  lemma {:induction false} Opening(rs: seq<Request>, window: pos, life: pos) returns (f: nat)
    requires life <= Lifetime(rs, window)
    ensures f < |rs| && Lifetime(rs[..f + 1], window) == life && After(rs[..f + 1], window) == Some(Counter(1, rs[f].at))
    decreases |rs|
  {
    var n := |rs| - 1;
    assert rs[..n + 1] == rs;
    if Starts(After(rs[..n], window), rs[n], window) && life == Lifetime(rs, window) {
      f := n;
    } else {
      f := Opening(rs[..n], window, life);
      assert rs[..n][..f + 1] == rs[..f + 1];
    }
  }

  /** The next lifetime starts a window after the opening of this one at the earliest. */
  lemma {:induction false} NextLifetimeStarts(rs: seq<Request>, window: pos, f: nat)
    requires InOrder(rs) && f < |rs| && After(rs[..f + 1], window) == Some(Counter(1, rs[f].at))
    ensures After(rs, window).value.started <= rs[|rs| - 1].at
    ensures Lifetime(rs, window) >= Lifetime(rs[..f + 1], window)
    ensures Lifetime(rs, window) == Lifetime(rs[..f + 1], window) ==> After(rs, window).value.started == rs[f].at
    ensures Lifetime(rs, window) > Lifetime(rs[..f + 1], window) ==> After(rs, window).value.started >= rs[f].at + window
    decreases |rs|
  {
    var n := |rs| - 1;
    assert rs[..n + 1] == rs;
    if f < n {
      assert rs[..n][..f + 1] == rs[..f + 1];
      NextLifetimeStarts(rs[..n], window, f);
    }
  }

  lemma OnlyLastTwoLifetimes(rs: seq<Request>, window: pos, from: Instant)
    requires InOrder(rs) && rs != [] && from <= rs[|rs| - 1].at < from + window && Lifetime(rs, window) > 0
    ensures WithinLifetimes(rs, window, from, from + window, Lifetime(rs, window))
  {
    var life := Lifetime(rs, window);
    forall i | 0 <= i < |rs| && from <= rs[i].at < from + window
      ensures life - 1 <= Lifetime(rs[..i + 1], window) <= life
    {
      LifetimesGrow(rs, window, i + 1);
      if Lifetime(rs[..i + 1], window) + 2 <= life { TwoLifetimesLater(rs, window, i); }
    }
  }

  /** In any half-open interval one window long at most twice the limit less one passes: the request
      that opened the earlier of the two lifetimes lies before the interval. */
  lemma {:induction false} TwiceTheLimit(rs: seq<Request>, limit: nat, window: pos, from: Instant)
    requires InOrder(rs)
    ensures PassedBetween(rs, limit, window, from, from + window) <= Max(0, 2 * limit - 1)
  {
    if rs != [] {
      var n := |rs| - 1;
      if from <= rs[n].at < from + window {
        LifetimeAdmits(rs, limit, window, Lifetime(rs, window));
        var life: pos := Lifetime(rs, window);
        LifetimeAdmits(rs, limit, window, life - 1);
        OnlyLastTwoLifetimes(rs, window, from);
        IntervalByLifetimes(rs, limit, window, from, from + window, life);
        if life > 1 && limit > 0 {
          var f := Opening(rs, window, life - 1);
          NextLifetimeStarts(rs, window, f);
          OnePassedBefore(rs, limit, window, from, life, f);
        } else if life == 1 {
          NoLifetimeZero(rs, limit, window);
        }
      } else {
        TwiceTheLimit(rs[..n], limit, window, from);
      }
    }
  }

  lemma {:induction false} NoLifetimeZero(rs: seq<Request>, limit: nat, window: pos)
    ensures PassedInLifetime(rs, limit, window, 0) == 0
  {
    if rs != [] {
      NoLifetimeZero(rs[..|rs| - 1], limit, window);
      LifetimeAdmits(rs, limit, window, 0);
    }
  }

  // ------------------------------------------------------------- the bound is met

  /** `n` requests at one instant, after those of `rs`. */
  function Repeat(rs: seq<Request>, r: Request, n: nat): seq<Request> {
    if n == 0 then rs else Repeat(rs, r, n - 1) + [r]
  }

  /** What a trace has come to: its last instant, the key's counter, and how many passed in the window from `from`. */
  predicate ComesTo(rs: seq<Request>, limit: nat, window: pos, from: Instant, last: Instant, c: Counter, passed: nat) {
    && InOrder(rs) && rs != [] && rs[|rs| - 1].at == last
    && After(rs, window) == Some(c) && PassedBetween(rs, limit, window, from, from + window) == passed
  }

  lemma OneMore(rs: seq<Request>, limit: nat, window: pos, from: Instant, last: Instant, c: Counter, passed: nat, r: Request)
    requires ComesTo(rs, limit, window, from, last, c, passed) && last <= r.at
    ensures var next := Incremented(Some(c), r, window);
      ComesTo(rs + [r], limit, window, from, r.at, next,
              passed + (if from <= r.at < from + window && next.count <= limit then 1 else 0))
  {
    assert (rs + [r])[..|rs|] == rs;
  }

  lemma FirstRequest(limit: nat, window: pos, from: Instant)
    requires from > 0
    ensures ComesTo([Request(0, false)], limit, window, from, 0, Counter(1, 0), 0)
  {
    var rs := [Request(0, false)];
    assert rs[..|rs| - 1] == [];
    assert PassedBetween(rs[..|rs| - 1], limit, window, from, from + window) == 0;
    assert After(rs[..|rs| - 1], window) == None;
  }

  /** Requests within one lifetime and the interval, as long as the count stays within the limit. */
  lemma {:induction false} AllPass(rs: seq<Request>, limit: nat, window: pos, from: Instant, last: Instant, c: Counter, passed: nat,
                                   r: Request, n: nat)
    requires ComesTo(rs, limit, window, from, last, c, passed) && last <= r.at && from <= r.at < from + window
    requires c.started <= r.at <= c.started + window && (r.gone ==> r.at < c.started + window) && c.count + n <= limit
    ensures ComesTo(Repeat(rs, r, n), limit, window, from, if n == 0 then last else r.at, c.(count := c.count + n), passed + n)
  {
    if n > 0 {
      AllPass(rs, limit, window, from, last, c, passed, r, n - 1);
      var before, at := Repeat(rs, r, n - 1), if n == 1 then last else r.at;
      var found := c.(count := c.count + (n - 1));
      assert Incremented(Some(found), r, window) == c.(count := c.count + n);
      OneMore(before, limit, window, from, at, found, passed + (n - 1), r);
      assert Repeat(rs, r, n) == before + [r];
    }
  }

  /** Every positive limit and every window has traces in which exactly that many pass: one request
      opens a lifetime, the others of its quota come at `at` while the key lives, and a whole quota
      comes when it has gone. */
  lemma BoundIsMet(limit: pos, window: pos, at: Instant)
    requires 0 < at <= window
    ensures exists rs :: InOrder(rs) && PassedBetween(rs, limit, window, at, at + window) == 2 * limit - 1
  {
    var first := [Request(0, false)];
    FirstRequest(limit, window, at);
    AllPass(first, limit, window, at, 0, Counter(1, 0), 0, Request(at, false), limit - 1);
    var quota := Repeat(first, Request(at, false), limit - 1);
    var last := if limit == 1 then 0 else at;
    OneMore(quota, limit, window, at, last, Counter(limit, 0), limit - 1, Request(window, true));
    var reopened := quota + [Request(window, true)];
    AllPass(reopened, limit, window, at, window, Counter(1, window), limit, Request(window, true), limit - 1);
    assert InOrder(Repeat(reopened, Request(window, true), limit - 1));
  }
}
