/** The promotion policy of a peer's data path: probe ticks move traffic from the relay
    to the direct path and back, with hysteresis, exponential backoff and forgiveness.
    The theorems speak about whole runs of ticks and about nothing the policy stores. */
module Probe {
  import opened Domain

  type Time = int   // nanoseconds

  const SECOND: Time := 1_000_000_000
  const PROBE_TIMEOUT: Time := 10 * SECOND
  const UPGRADE_THRESHOLD: nat := 3
  const MIN_BACKOFF: Time := 15 * SECOND
  const MAX_BACKOFF: Time := 300 * SECOND
  const RESET_AFTER: Time := 120 * SECOND

  /** The fields of probeState; None stands for the zero time. */
  datatype Policy = Policy(
    good: nat,
    seen: Time,
    backoff: Time,
    nextUpgrade: Option<Time>,
    promotedAt: Option<Time>,
    direct: bool)

  datatype Decision = Stay | Promote | Demote(retryIn: Time)

  const FRESH := Policy(0, 0, MIN_BACKOFF, None, None, false)

  function Min(a: Time, b: Time): Time {
    if a < b then a else b
  }

  predicate Counts(seen: Time, pong: Time, now: Time) {
    pong != 0 && pong != seen && now - pong < PROBE_TIMEOUT
  }

  function Observe(p: Policy, pong: Time, now: Time): (Policy, Decision) {
    var answered := Counts(p.seen, pong, now);
    var q := p.(seen := pong, good := if answered then p.good + 1 else 0);
    if p.direct then
      if answered then (q, Stay)
      else
        var wait := if p.promotedAt.Some? && now - p.promotedAt.value >= RESET_AFTER then MIN_BACKOFF else p.backoff;
        (q.(direct := false, nextUpgrade := Some(now + wait), backoff := Min(2 * wait, MAX_BACKOFF)), Demote(wait))
    else if q.good >= UPGRADE_THRESHOLD && (p.nextUpgrade.None? || now > p.nextUpgrade.value) then
      (q.(direct := true, promotedAt := Some(now)), Promote)
    else (q, Stay)
  }

  class ProbeState {
    var consecutiveGood: nat
    var seenPong: Time
    var backoff: Time
    var nextUpgrade: Option<Time>
    var promotedAt: Option<Time>
    var direct: bool

    function Value(): Policy
      reads this
    {
      Policy(consecutiveGood, seenPong, backoff, nextUpgrade, promotedAt, direct)
    }

    constructor ()
      ensures Value() == FRESH
    {
      consecutiveGood, seenPong, backoff := 0, 0, MIN_BACKOFF;
      nextUpgrade, promotedAt, direct := None, None, false;
    }

    method ObserveTick(pong: Time, now: Time) returns (promote: bool, demote: bool, retryIn: Time)
      modifies this
      ensures Value() == Observe(old(Value()), pong, now).0
      ensures Observe(old(Value()), pong, now).1
           == if promote then Promote else if demote then Demote(retryIn) else Stay
      ensures !(promote && demote)
    {
      var answered := pong != 0 && pong != seenPong && now - pong < PROBE_TIMEOUT;
      seenPong := pong;
      if answered {
        consecutiveGood := consecutiveGood + 1;
      } else {
        consecutiveGood := 0;
      }
      if direct {
        if answered {
          return false, false, 0;
        }
        direct := false;
        if promotedAt.Some? && now - promotedAt.value >= RESET_AFTER {
          backoff := MIN_BACKOFF;
        }
        retryIn := backoff;
        nextUpgrade := Some(now + backoff);
        backoff := backoff * 2;
        if backoff > MAX_BACKOFF {
          backoff := MAX_BACKOFF;
        }
        return false, true, retryIn;
      }
      if consecutiveGood >= UPGRADE_THRESHOLD && (nextUpgrade.None? || now > nextUpgrade.value) {
        direct := true;
        promotedAt := Some(now);
        return true, false, 0;
      }
      return false, false, 0;
    }
  }

  // ---- Runs ----------------------------------------------------------------------

  datatype Tick = Tick(pong: Time, now: Time)

  predicate InOrder(ticks: seq<Tick>, i: int, j: int) {
    0 <= i <= j < |ticks| ==> ticks[i].now <= ticks[j].now
  }

  ghost predicate Clocked(ticks: seq<Tick>) {
    forall i, j :: InOrder(ticks, i, j)
  }

  function After(ticks: seq<Tick>): Policy {
    if ticks == [] then FRESH
    else Observe(After(ticks[..|ticks| - 1]), ticks[|ticks| - 1].pong, ticks[|ticks| - 1].now).0
  }

  /** The decision taken at tick `i`. */
  function Decided(ticks: seq<Tick>, i: int): Decision
    requires 0 <= i < |ticks|
  {
    Observe(After(ticks[..i]), ticks[i].pong, ticks[i].now).1
  }

  /** Tick `i` brought a pong the tick before had not seen, less than 10 s old. */
  predicate Answered(ticks: seq<Tick>, i: int)
    requires 0 <= i < |ticks|
  {
    Counts(if i == 0 then 0 else ticks[i - 1].pong, ticks[i].pong, ticks[i].now)
  }

  /** Promoted at `p` and never demoted between then and tick `n`. */
  predicate DirectSince(ticks: seq<Tick>, p: int, n: int)
    requires n <= |ticks|
  {
    0 <= p < n && Decided(ticks, p).Promote? && forall q :: p < q < n ==> !Decided(ticks, q).Demote?
  }

  /** The path is direct just before tick `n`. */
  ghost predicate Direct(ticks: seq<Tick>, n: int)
    requires n <= |ticks|
  {
    exists p :: DirectSince(ticks, p, n)
  }

  /** Every stall before tick `n` was waited out by `now`. */
  ghost predicate Rested(ticks: seq<Tick>, n: int, now: Time)
    requires n <= |ticks|
  {
    forall d :: 0 <= d < n && Decided(ticks, d).Demote? ==> now > ticks[d].now + Decided(ticks, d).retryIn
  }

  lemma AfterNext(ticks: seq<Tick>, n: int)
    requires 0 <= n < |ticks|
    ensures After(ticks[..n + 1]) == Observe(After(ticks[..n]), ticks[n].pong, ticks[n].now).0
  {
    assert ticks[..n + 1][..n] == ticks[..n];
  }

  /** How many ticks up to the first `n` were answered in a row. */
  function Streak(ticks: seq<Tick>, n: int): nat
    requires 0 <= n <= |ticks|
  {
    if n == 0 || !Answered(ticks, n - 1) then 0 else Streak(ticks, n - 1) + 1
  }

  /** What the policy remembers of the first `n` ticks. */
  lemma {:induction false} Remembered(ticks: seq<Tick>, n: int)
    requires 0 <= n <= |ticks|
    ensures After(ticks[..n]).seen == (if n == 0 then 0 else ticks[n - 1].pong) && After(ticks[..n]).good == Streak(ticks, n)
  {
    if n > 0 {
      Remembered(ticks, n - 1);
      AfterNext(ticks, n - 1);
    }
  }

  lemma StreakOfThree(ticks: seq<Tick>, n: int)
    requires 0 <= n < |ticks|
    ensures Streak(ticks, n + 1) >= 3 <==> n >= 2 && Answered(ticks, n - 2) && Answered(ticks, n - 1) && Answered(ticks, n)
  {
    if n >= 2 {
      assert Streak(ticks, n) == if Answered(ticks, n - 1) then Streak(ticks, n - 1) + 1 else 0;
      assert Streak(ticks, n - 1) == if Answered(ticks, n - 2) then Streak(ticks, n - 2) + 1 else 0;
    } else if n == 1 {
      assert Streak(ticks, 0) == 0;
    }
  }

  lemma LastThree(ticks: seq<Tick>, n: int)
    requires 0 <= n < |ticks|
    ensures After(ticks[..n + 1]).good >= UPGRADE_THRESHOLD
       <==> n >= 2 && Answered(ticks, n - 2) && Answered(ticks, n - 1) && Answered(ticks, n)
  {
    Remembered(ticks, n + 1);
    StreakOfThree(ticks, n);
  }

  lemma DirectStep(ticks: seq<Tick>, n: int)
    requires 0 <= n < |ticks|
    ensures Direct(ticks, n + 1) <==> Decided(ticks, n).Promote? || (Direct(ticks, n) && !Decided(ticks, n).Demote?)
  {
    if Direct(ticks, n + 1) {
      var m := n + 1;
      var p :| DirectSince(ticks, p, m);
      assert p < n ==> DirectSince(ticks, p, n);
    }
    if p :| DirectSince(ticks, p, n) {
      assert !Decided(ticks, n).Demote? ==> DirectSince(ticks, p, n + 1);
    }
    assert Decided(ticks, n).Promote? ==> DirectSince(ticks, n, n + 1);
  }

  lemma {:induction false} DirectRemembered(ticks: seq<Tick>, n: int)
    requires 0 <= n <= |ticks|
    ensures After(ticks[..n]).direct <==> Direct(ticks, n)
  {
    if n > 0 {
      DirectRemembered(ticks, n - 1);
      AfterNext(ticks, n - 1);
      DirectStep(ticks, n - 1);
    }
  }

  /** Waits stay in range, and a direct path was promoted after the last deadline. */
  ghost predicate Bounded(ticks: seq<Tick>, n: int)
    requires 0 <= n <= |ticks|
  {
    var p := After(ticks[..n]);
    && MIN_BACKOFF <= p.backoff <= MAX_BACKOFF
    && (p.direct ==> n > 0 && p.promotedAt.Some? && p.promotedAt.value <= ticks[n - 1].now)
    && (p.direct && p.nextUpgrade.Some? ==> p.nextUpgrade.value < p.promotedAt.value)
  }

  lemma {:induction false} BoundedHolds(ticks: seq<Tick>, n: int)
    requires 0 <= n <= |ticks| && Clocked(ticks)
    ensures Bounded(ticks, n)
  {
    if n > 0 {
      BoundedHolds(ticks, n - 1);
      AfterNext(ticks, n - 1);
      assert InOrder(ticks, n - 2, n - 1);
    }
  }

  /** When the wait that starts at stall `d` ends. */
  function WaitEnds(ticks: seq<Tick>, d: int): Time
    requires 0 <= d < |ticks| && Decided(ticks, d).Demote?
  {
    ticks[d].now + Decided(ticks, d).retryIn
  }

  /** The last stall among the first `n` ticks, or -1. */
  function LastStall(ticks: seq<Tick>, n: int): (d: int)
    requires 0 <= n <= |ticks|
    ensures -1 <= d < n && (d >= 0 ==> Decided(ticks, d).Demote?)
  {
    if n == 0 then -1 else if Decided(ticks, n - 1).Demote? then n - 1 else LastStall(ticks, n - 1)
  }

  /** The deadline kept is that of the last stall. */
  lemma {:induction false} DeadlineHolds(ticks: seq<Tick>, n: int)
    requires 0 <= n <= |ticks|
    ensures After(ticks[..n]).nextUpgrade
      == if LastStall(ticks, n) < 0 then None else Some(WaitEnds(ticks, LastStall(ticks, n)))
  {
    if n > 0 {
      DeadlineHolds(ticks, n - 1);
      AfterNext(ticks, n - 1);
    }
  }

  /** A stall comes after the wait of the stall before it. */
  lemma {:induction false} StallAfterWait(ticks: seq<Tick>, m: int)
    requires 0 <= m < |ticks| && Clocked(ticks) && Decided(ticks, m).Demote? && LastStall(ticks, m) >= 0
    ensures WaitEnds(ticks, LastStall(ticks, m)) <= WaitEnds(ticks, m)
  {
    DeadlineHolds(ticks, m);
    BoundedHolds(ticks, m);
    assert InOrder(ticks, m - 1, m);
  }

  /** No earlier stall's wait ends later. */
  lemma {:induction false} LastStallLatest(ticks: seq<Tick>, n: int, d: int)
    requires 0 <= d < n <= |ticks| && Clocked(ticks) && Decided(ticks, d).Demote?
    ensures LastStall(ticks, n) >= 0 && WaitEnds(ticks, d) <= WaitEnds(ticks, LastStall(ticks, n))
  {
    if d < n - 1 {
      LastStallLatest(ticks, n - 1, d);
      if Decided(ticks, n - 1).Demote? {
        StallAfterWait(ticks, n - 1);
      }
    }
  }

  lemma RestedRemembered(ticks: seq<Tick>, n: int, now: Time)
    requires 0 <= n <= |ticks| && Clocked(ticks)
    ensures var p := After(ticks[..n]); (p.nextUpgrade.None? || now > p.nextUpgrade.value) <==> Rested(ticks, n, now)
  {
    DeadlineHolds(ticks, n);
    forall d | 0 <= d < n && Decided(ticks, d).Demote?
      ensures LastStall(ticks, n) >= 0 && WaitEnds(ticks, d) <= WaitEnds(ticks, LastStall(ticks, n))
    {
      LastStallLatest(ticks, n, d);
    }
  }

  /** A tick promotes exactly when the path is on relay, the last three ticks each
      brought a new pong under 10 s old, and every earlier stall has been waited out. */
  lemma PromotesIff(ticks: seq<Tick>, n: int)
    requires 0 <= n < |ticks| && Clocked(ticks)
    ensures Decided(ticks, n).Promote? <==>
      && !Direct(ticks, n)
      && n >= 2 && Answered(ticks, n - 2) && Answered(ticks, n - 1) && Answered(ticks, n)
      && Rested(ticks, n, ticks[n].now)
  {
    AfterNext(ticks, n);
    LastThree(ticks, n);
    DirectRemembered(ticks, n);
    RestedRemembered(ticks, n, ticks[n].now);
  }

  /** A tick demotes exactly when the path is direct and the tick went unanswered, and
      the wait is never under 15 s or over 5 minutes. */
  lemma DemotesIff(ticks: seq<Tick>, n: int)
    requires 0 <= n < |ticks| && Clocked(ticks)
    ensures Decided(ticks, n).Demote? <==> Direct(ticks, n) && !Answered(ticks, n)
    ensures Decided(ticks, n).Demote? ==> MIN_BACKOFF <= Decided(ticks, n).retryIn <= MAX_BACKOFF
  {
    Remembered(ticks, n);
    DirectRemembered(ticks, n);
    BoundedHolds(ticks, n);
  }

  /** Promotions are more than 15 s apart. */
  lemma PromotionsApart(ticks: seq<Tick>, i: int, j: int)
    requires 0 <= i < j < |ticks| && Clocked(ticks)
    requires Decided(ticks, i).Promote? && Decided(ticks, j).Promote?
    ensures ticks[j].now - ticks[i].now > 15 * SECOND
  {
    PromotesIff(ticks, j);
    var d := StallBetween(ticks, i, j);
    DemotesIff(ticks, d);
    assert InOrder(ticks, i, d);
  }

  /** A promoted path has to stall before it can be promoted again. */
  lemma StallBetween(ticks: seq<Tick>, i: int, j: int) returns (d: int)
    requires 0 <= i < j < |ticks| && Decided(ticks, i).Promote? && !Direct(ticks, j)
    ensures i < d < j && Decided(ticks, d).Demote?
  {
    assert !DirectSince(ticks, i, j);
    d :| i < d < j && Decided(ticks, d).Demote?;
  }

  // ---- Backoff -------------------------------------------------------------------

  /** When the path was last promoted. */
  function LastPromotion(ticks: seq<Tick>, n: int): Option<Time>
    requires 0 <= n <= |ticks|
  {
    if n == 0 then None
    else if Decided(ticks, n - 1).Promote? then Some(ticks[n - 1].now)
    else LastPromotion(ticks, n - 1)
  }

  /** Tick `d` ends a promotion that lasted at least 2 minutes. */
  predicate Forgiven(ticks: seq<Tick>, d: int)
    requires 0 <= d < |ticks|
  {
    LastPromotion(ticks, d).Some? && ticks[d].now - LastPromotion(ticks, d).value >= RESET_AFTER
  }

  /** Successive stalls among the first `n` ticks, counted from the start or from the
      last forgiven one. */
  function Stalls(ticks: seq<Tick>, n: int): nat
    requires 0 <= n <= |ticks|
  {
    if n == 0 then 0
    else if !Decided(ticks, n - 1).Demote? then Stalls(ticks, n - 1)
    else if Forgiven(ticks, n - 1) then 1
    else Stalls(ticks, n - 1) + 1
  }

  lemma BackoffDoubles(j: nat)
    ensures Min(2 * Min(MIN_BACKOFF * Pow2(j), MAX_BACKOFF), MAX_BACKOFF) == Min(MIN_BACKOFF * Pow2(j + 1), MAX_BACKOFF)
  {
  }

  lemma {:induction false} BackoffRemembered(ticks: seq<Tick>, n: int)
    requires 0 <= n <= |ticks|
    ensures After(ticks[..n]).promotedAt == LastPromotion(ticks, n)
    ensures After(ticks[..n]).backoff == Min(MIN_BACKOFF * Pow2(Stalls(ticks, n)), MAX_BACKOFF)
  {
    if n > 0 {
      BackoffRemembered(ticks, n - 1);
      AfterNext(ticks, n - 1);
      BackoffDoubles(Stalls(ticks, n - 1));
      assert Pow2(1) == 2 && Pow2(0) == 1;
    }
  }

  lemma WaitInSeconds(x: nat)
    ensures Min(MIN_BACKOFF * x, MAX_BACKOFF) == Min(15 * x, 300) * SECOND
  {
  }

  /** The j-th successive stall waits min(15 * 2^(j-1), 300) seconds. */
  lemma {:induction false} StallWaits(ticks: seq<Tick>, d: int)
    requires 0 <= d < |ticks| && Decided(ticks, d).Demote?
    ensures Stalls(ticks, d + 1) >= 1
    ensures Decided(ticks, d).retryIn == Min(15 * Pow2(Stalls(ticks, d + 1) - 1), 300) * SECOND
  {
    BackoffRemembered(ticks, d);
    WaitInSeconds(Pow2(Stalls(ticks, d + 1) - 1));
    assert Pow2(0) == 1;
  }
}
