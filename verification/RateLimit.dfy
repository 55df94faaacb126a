/** The per-source token bucket in front of Login, with its sweep of idle buckets.
    Time and tokens are reals, in seconds and tokens. */
module RateLimit {
  type Time = real

  const CAPACITY: real := 5.0
  const RATE: real := 5.0 / 60.0
  const SWEEP_EVERY: Time := 120.0
  const IDLE_LIMIT: Time := 300.0

  datatype Bucket = Bucket(tokens: real, last: Time)

  type Buckets = map<string, Bucket>

  /** Drops the buckets that have been idle for more than five minutes. */
  function Sweep(b: Buckets, now: Time): Buckets {
    map k | k in b && now - b[k].last <= IDLE_LIMIT :: b[k]
  }

  function Refill(b: Bucket, now: Time): real {
    var full := b.tokens + (now - b.last) * RATE;
    if full > CAPACITY then CAPACITY else full
  }

  /** One request against the buckets as they are. */
  function Serve(b: Buckets, key: string, now: Time): (Buckets, bool) {
    if key !in b then (b[key := Bucket(CAPACITY - 1.0, now)], true)
    else
      var tokens := Refill(b[key], now);
      if tokens < 1.0 then (b[key := Bucket(tokens, now)], false)
      else (b[key := Bucket(tokens - 1.0, now)], true)
  }

  datatype Limiter = Limiter(buckets: Buckets, cleaned: Time)

  function Clean(l: Limiter, now: Time): Limiter {
    if now - l.cleaned > SWEEP_EVERY then Limiter(Sweep(l.buckets, now), now) else l
  }

  function Allow(l: Limiter, key: string, now: Time): (Limiter, bool) {
    var c := Clean(l, now);
    var r := Serve(c.buckets, key, now);
    (Limiter(r.0, c.cleaned), r.1)
  }

  class RateLimiter {
    var buckets: Buckets
    var cleaned: Time

    function Value(): Limiter
      reads this
    {
      Limiter(buckets, cleaned)
    }

    constructor (now: Time)
      ensures Value() == Limiter(map[], now)
    {
      buckets, cleaned := map[], now;
    }

    method Evict(now: Time)
      modifies this`buckets
      ensures buckets == Sweep(old(buckets), now)
    {
      var todo := buckets.Keys;
      while todo != {}
        invariant todo <= buckets.Keys <= old(buckets).Keys
        invariant forall k :: k in buckets ==> buckets[k] == old(buckets)[k]
        invariant forall k :: k in old(buckets) ==>
          (k in buckets <==> k in todo || now - old(buckets)[k].last <= IDLE_LIMIT)
        decreases |todo|
      {
        var k :| k in todo;
        todo := todo - {k};
        if now - buckets[k].last > IDLE_LIMIT {
          buckets := buckets - {k};
        }
      }
    }

    method AllowRequest(key: string, now: Time) returns (ok: bool)
      modifies this
      ensures Value() == Allow(old(Value()), key, now).0 && ok == Allow(old(Value()), key, now).1
    {
      if now - cleaned > SWEEP_EVERY {
        Evict(now);
        cleaned := now;
      }
      if key !in buckets {
        buckets := buckets[key := Bucket(CAPACITY - 1.0, now)];
        return true;
      }
      var b := buckets[key];
      var tokens := b.tokens + (now - b.last) * RATE;
      if tokens > CAPACITY {
        tokens := CAPACITY;
      }
      if tokens < 1.0 {
        buckets := buckets[key := Bucket(tokens, now)];
        return false;
      }
      buckets := buckets[key := Bucket(tokens - 1.0, now)];
      return true;
    }
  }

  // ---- Runs ----------------------------------------------------------------------

  datatype Request = Request(key: string, now: Time)

  /** The clock never goes back, from the limiter's start on. */
  predicate Clocked(start: Time, rs: seq<Request>) {
    && (forall i :: 0 <= i < |rs| ==> start <= rs[i].now)
    && (forall i, j :: 0 <= i <= j < |rs| ==> rs[i].now <= rs[j].now)
  }

  function After(start: Time, rs: seq<Request>): Limiter {
    if rs == [] then Limiter(map[], start)
    else Allow(After(start, rs[..|rs| - 1]), rs[|rs| - 1].key, rs[|rs| - 1].now).0
  }

  /** The limiter's answer to the last request. */
  function Answer(start: Time, rs: seq<Request>): bool
    requires rs != []
  {
    Allow(After(start, rs[..|rs| - 1]), rs[|rs| - 1].key, rs[|rs| - 1].now).1
  }

  /** The same requests against buckets that are never evicted. */
  function Kept(rs: seq<Request>): Buckets {
    if rs == [] then map[] else Serve(Kept(rs[..|rs| - 1]), rs[|rs| - 1].key, rs[|rs| - 1].now).0
  }

  function KeptAnswer(rs: seq<Request>): bool
    requires rs != []
  {
    Serve(Kept(rs[..|rs| - 1]), rs[|rs| - 1].key, rs[|rs| - 1].now).1
  }

  lemma ClockedFront(start: Time, rs: seq<Request>)
    requires rs != [] && Clocked(start, rs)
    ensures Clocked(start, rs[..|rs| - 1])
  {
  }

  /** Bucket by bucket: the limiter has what was kept, or the kept one would be full. */
  predicate Simulates(b: Buckets, kept: Buckets, now: Time, k: string) {
    && (k in kept ==> 0.0 <= kept[k].tokens <= CAPACITY && kept[k].last <= now)
    && (k in b ==> k in kept && b[k] == kept[k])
    && (k in kept && k !in b ==> now - kept[k].last > IDLE_LIMIT)
  }

  lemma ServeSimulates(b: Buckets, kept: Buckets, before: Time, key: string, now: Time, k: string)
    requires before <= now && Simulates(b, kept, before, k) && Simulates(b, kept, before, key)
    ensures Simulates(Serve(b, key, now).0, Serve(kept, key, now).0, now, k)
    ensures Serve(b, key, now).1 == Serve(kept, key, now).1
  {
  }

  lemma CleanSimulates(l: Limiter, kept: Buckets, before: Time, now: Time, k: string)
    requires before <= now && Simulates(l.buckets, kept, before, k)
    ensures Simulates(Clean(l, now).buckets, kept, now, k)
  {
  }

  lemma {:induction false} Simulation(start: Time, rs: seq<Request>, k: string)
    requires Clocked(start, rs)
    ensures Simulates(After(start, rs).buckets, Kept(rs), if rs == [] then start else rs[|rs| - 1].now, k)
  {
    if rs != [] {
      var front, r := rs[..|rs| - 1], rs[|rs| - 1];
      var before := if front == [] then start else front[|front| - 1].now;
      var l, kept := After(start, front), Kept(front);
      ClockedFront(start, rs);
      Simulation(start, front, k);
      Simulation(start, front, r.key);
      CleanSimulates(l, kept, before, r.now, k);
      CleanSimulates(l, kept, before, r.now, r.key);
      ServeSimulates(Clean(l, r.now).buckets, kept, r.now, r.key, r.now, k);
    }
  }

  /** Eviction is invisible: every request is answered as if no bucket were ever dropped. */
  lemma EvictionInvisible(start: Time, rs: seq<Request>)
    requires rs != [] && Clocked(start, rs)
    ensures Answer(start, rs) == KeptAnswer(rs)
  {
    var front, r := rs[..|rs| - 1], rs[|rs| - 1];
    var before := if front == [] then start else front[|front| - 1].now;
    ClockedFront(start, rs);
    Simulation(start, front, r.key);
    CleanSimulates(After(start, front), Kept(front), before, r.now, r.key);
    ServeSimulates(Clean(After(start, front), r.now).buckets, Kept(front), r.now, r.key, r.now, r.key);
  }

  // ---- The bound -----------------------------------------------------------------

  /** How many requests of `key` made between `s` and `t` were let through. */
  function Successes(start: Time, rs: seq<Request>, key: string, s: Time, t: Time): nat {
    if rs == [] then 0
    else
      var r := rs[|rs| - 1];
      Successes(start, rs[..|rs| - 1], key, s, t)
      + if r.key == key && s <= r.now <= t && Answer(start, rs) then 1 else 0
  }

  /** Tokens spent in the window and tokens left never exceed what the window brought. */
  predicate Paid(n: nat, kept: Buckets, key: string, s: Time, t: Time) {
    if key !in kept || kept[key].last < s then n == 0
    else if kept[key].last <= t then n as real + kept[key].tokens <= CAPACITY + (kept[key].last - s) * RATE
    else n as real <= CAPACITY + (t - s) * RATE
  }

  lemma ServePaid(n: nat, kept: Buckets, key: string, now: Time, s: Time, t: Time)
    requires s <= t && Paid(n, kept, key, s, t)
    requires key in kept ==> 0.0 <= kept[key].tokens <= CAPACITY && kept[key].last <= now
    ensures Paid(n + if s <= now <= t && Serve(kept, key, now).1 then 1 else 0, Serve(kept, key, now).0, key, s, t)
  {
  }

  lemma {:induction false} PaidHolds(start: Time, rs: seq<Request>, key: string, s: Time, t: Time)
    requires s <= t && Clocked(start, rs)
    ensures Paid(Successes(start, rs, key, s, t), Kept(rs), key, s, t)
  {
    if rs != [] {
      var front, r := rs[..|rs| - 1], rs[|rs| - 1];
      ClockedFront(start, rs);
      PaidHolds(start, front, key, s, t);
      EvictionInvisible(start, rs);
      Simulation(start, front, key);
      if r.key == key {
        ServePaid(Successes(start, front, key, s, t), Kept(front), key, r.now, s, t);
      }
    }
  }

  /** In every run one source gets at most 5 + (t - s) / 12 logins in a window [s, t]. */
  lemma {:induction false} TokenBucketBound(start: Time, rs: seq<Request>, key: string, s: Time, t: Time)
    requires s <= t && Clocked(start, rs)
    ensures Successes(start, rs, key, s, t) as real <= 5.0 + (t - s) / 12.0
  {
    PaidHolds(start, rs, key, s, t);
    Simulation(start, rs, key);
    assert (t - s) * RATE == (t - s) / 12.0 && (t - s) * RATE >= 0.0;
    var kept := Kept(rs);
    if key in kept && s <= kept[key].last <= t {
      assert (kept[key].last - s) * RATE <= (t - s) * RATE;
    }
  }
}
