/** The address allocator: a counter over a CIDR block and a map of leases. */
module Ipam {
  import opened Domain

  /** `base` is the block's network address; `next` is a 32-bit counter. */
  datatype Pool = Pool(base: Addr, bits: Bits, next: Addr, leased: map<Key, Addr>)

  function Size(bits: Bits): nat {
    Pow2(32 - bits)
  }

  /** The last address of the block. */
  function Broadcast(p: Pool): int {
    p.base + Size(p.bits) - 1
  }

  /** Conversion of a sum to the counter's 32 bits. */
  function Wrap(n: nat): Addr {
    n % ADDRESS_SPACE
  }

  /** A block inside the address space, which every parsed CIDR is. */
  predicate IsBlock(base: Addr, bits: Bits) {
    base + Size(bits) <= ADDRESS_SPACE
  }

  function New(base: Addr, bits: Bits): Pool {
    Pool(base, bits, Wrap(base + 1), map[])
  }

  function Allocate(p: Pool, key: Key): (Pool, Option<Addr>) {
    if key in p.leased then (p, Some(p.leased[key]))
    else if p.next >= Broadcast(p) then (p, None)
    else (p.(next := Wrap(p.next + 1), leased := p.leased[key := p.next]), Some(p.next))
  }

  function Release(p: Pool, key: Key): Pool {
    p.(leased := p.leased - {key})
  }

  /** A stored peer as the allocator reads it back: its key and its address, if any. */
  datatype Saved = Saved(key: Key, ip: Option<Addr>)

  function PreloadOne(p: Pool, s: Saved): Pool {
    if s.ip.None? then p
    else p.(leased := p.leased[s.key := s.ip.value], next := if s.ip.value >= p.next then Wrap(s.ip.value + 1) else p.next)
  }

  function Preload(p: Pool, saved: seq<Saved>): Pool {
    if saved == [] then p else PreloadOne(Preload(p, saved[..|saved| - 1]), saved[|saved| - 1])
  }

  class IPAM {
    const base: Addr
    const bits: Bits
    var next: Addr
    var leased: map<Key, Addr>

    function Value(): Pool
      reads this
    {
      Pool(base, bits, next, leased)
    }

    constructor (base: Addr, bits: Bits)
      ensures Value() == New(base, bits)
    {
      this.base, this.bits := base, bits;
      next := Wrap(base + 1);
      leased := map[];
    }

    method AllocateKey(key: Key) returns (ip: Option<Addr>)
      modifies this
      ensures (Value(), ip) == Allocate(old(Value()), key)
    {
      if key in leased {
        return Some(leased[key]);
      }
      if next >= base + Size(bits) - 1 {
        return None;
      }
      var host := next;
      next := Wrap(next + 1);
      leased := leased[key := host];
      return Some(host);
    }

    method ReleaseKey(key: Key)
      modifies this
      ensures Value() == Release(old(Value()), key)
    {
      leased := leased - {key};
    }

    method PreloadPeers(saved: seq<Saved>)
      modifies this
      ensures Value() == Preload(old(Value()), saved)
    {
      for i := 0 to |saved|
        invariant Value() == Preload(old(Value()), saved[..i])
      {
        assert saved[..i + 1][..i] == saved[..i];
        if saved[i].ip.Some? {
          var host := saved[i].ip.value;
          leased := leased[saved[i].key := host];
          if host >= next {
            next := Wrap(host + 1);
          }
        }
      }
      assert saved[..|saved|] == saved;
    }
  }

  // ---- One process ---------------------------------------------------------------

  datatype Event = Alloc(key: Key) | Free(key: Key)

  function Step(p: Pool, e: Event): Pool {
    match e
    case Alloc(k) => Allocate(p, k).0
    case Free(k) => Release(p, k)
  }

  function After(p: Pool, es: seq<Event>): Pool {
    if es == [] then p else Step(After(p, es[..|es| - 1]), es[|es| - 1])
  }

  /** The answer to the allocation at event `i`. */
  function Result(p: Pool, es: seq<Event>, i: nat): Option<Addr>
    requires i < |es|
  {
    if es[i].Alloc? then Allocate(After(p, es[..i]), es[i].key).1 else None
  }

  /** Event `i` handed out an address for a key that held none. */
  predicate Fresh(p: Pool, es: seq<Event>, i: nat)
    requires i < |es|
  {
    es[i].Alloc? && es[i].key !in After(p, es[..i]).leased && Result(p, es, i).Some?
  }

  function FreshCount(p: Pool, es: seq<Event>, n: nat): nat
    requires n <= |es|
  {
    if n == 0 then 0 else FreshCount(p, es, n - 1) + if Fresh(p, es, n - 1) then 1 else 0
  }

  lemma {:induction false} AfterNext(p: Pool, es: seq<Event>, n: nat)
    requires n < |es|
    ensures After(p, es[..n + 1]) == Step(After(p, es[..n]), es[n])
  {
    assert es[..n + 1][..n] == es[..n];
  }

  predicate LeasesBelow(p: Pool) {
    forall k :: k in p.leased ==> p.base < p.leased[k] < p.next
  }

  predicate LeasesDistinct(p: Pool) {
    forall j, k :: j in p.leased && k in p.leased && p.leased[j] == p.leased[k] ==> j == k
  }

  /** Every lease lies below the counter, and the counter inside the block. */
  predicate Sound(p: Pool) {
    IsBlock(p.base, p.bits) && p.base < p.next <= Broadcast(p) && LeasesBelow(p) && LeasesDistinct(p)
  }

  lemma AllocateSound(p: Pool, key: Key)
    requires Sound(p)
    ensures var (q, r) := Allocate(p, key);
      && Sound(q) && q.base == p.base && q.bits == p.bits
      && q.next == p.next + if key !in p.leased && r.Some? then 1 else 0
  {
  }

  lemma ReleaseSound(p: Pool, key: Key)
    requires Sound(p)
    ensures Sound(Release(p, key))
  {
  }

  lemma {:induction false} RunSound(p: Pool, es: seq<Event>, n: nat)
    requires Sound(p) && n <= |es|
    ensures var q := After(p, es[..n]);
      Sound(q) && q.base == p.base && q.bits == p.bits && q.next == p.next + FreshCount(p, es, n)
  {
    if n > 0 {
      RunSound(p, es, n - 1);
      AfterNext(p, es, n - 1);
      var q := After(p, es[..n - 1]);
      match es[n - 1]
      case Alloc(k) => AllocateSound(q, k);
      case Free(k) => ReleaseSound(q, k);
    }
  }

  lemma NewSound(base: Addr, bits: Bits)
    requires IsBlock(base, bits) && bits <= 30
    ensures Sound(New(base, bits)) && New(base, bits).next == base + 1 < Broadcast(New(base, bits))
  {
    assert Pow2(32 - bits) == 2 * Pow2(31 - bits);
    assert Pow2(31 - bits) == 2 * Pow2(30 - bits);
  }

  /** A key that holds no address gets one exactly while the counter is inside. */
  lemma {:induction false} FreshIff(p: Pool, es: seq<Event>, i: nat)
    requires Sound(p) && i < |es| && es[i].Alloc? && es[i].key !in After(p, es[..i]).leased
    ensures Fresh(p, es, i) <==> p.next + FreshCount(p, es, i) < Broadcast(p)
  {
    RunSound(p, es, i);
  }

  /** From an empty /n block, n at most 30, exactly 2^(32-n) - 2 requests by keys that
      hold no address succeed, whatever is released meanwhile. */
  lemma {:induction false} PoolCapacity(base: Addr, bits: Bits, es: seq<Event>, i: nat)
    requires IsBlock(base, bits) && bits <= 30 && i < |es|
    requires es[i].Alloc? && es[i].key !in After(New(base, bits), es[..i]).leased
    ensures Fresh(New(base, bits), es, i) <==> FreshCount(New(base, bits), es, i) < Pow2(32 - bits) - 2
  {
    NewSound(base, bits);
    FreshIff(New(base, bits), es, i);
  }

  /** One step never lowers the counter, and a lease below it was there before. */
  lemma StepOrigin(p: Pool, e: Event, k: Key)
    requires Sound(p)
    ensures var q := Step(p, e);
      p.next <= q.next && (k in q.leased && q.leased[k] < p.next ==> k in p.leased && p.leased[k] == q.leased[k])
  {
  }

  /** The counter only grows, and a lease below the counter of moment `i` that a key
      holds at moment `j` is one it held at moment `i`. */
  lemma {:induction false} LeaseOrigin(p: Pool, es: seq<Event>, i: nat, j: nat, k: Key)
    requires Sound(p) && i <= j <= |es|
    ensures var a, b := After(p, es[..i]), After(p, es[..j]);
      a.next <= b.next && (k in b.leased && b.leased[k] < a.next ==> k in a.leased && a.leased[k] == b.leased[k])
  {
    if i < j {
      LeaseOrigin(p, es, i, j - 1, k);
      AfterNext(p, es, j - 1);
      RunSound(p, es, j - 1);
      StepOrigin(After(p, es[..j - 1]), es[j - 1], k);
    }
  }

  /** A result is a lease right after the event. */
  lemma {:induction false} ResultLeased(p: Pool, es: seq<Event>, i: nat)
    requires Sound(p) && i < |es| && Result(p, es, i).Some?
    ensures var q := After(p, es[..i + 1]); es[i].key in q.leased && q.leased[es[i].key] == Result(p, es, i).value
  {
    AfterNext(p, es, i);
  }

  /** No address is ever issued to two keys in one process, even after a release. */
  lemma NeverIssuedTwice(p: Pool, es: seq<Event>, i: nat, j: nat)
    requires Sound(p) && i <= j < |es|
    requires Result(p, es, i).Some? && Result(p, es, j) == Result(p, es, i)
    ensures es[i].key == es[j].key
  {
    ResultLeased(p, es, i);
    ResultLeased(p, es, j);
    RunSound(p, es, i + 1);
    LeaseOrigin(p, es, i + 1, j + 1, es[j].key);
  }

  /** A leased key keeps its address as long as it is not released. */
  lemma {:induction false} LeaseKept(p: Pool, es: seq<Event>, k: Key)
    requires k in p.leased && forall i :: 0 <= i < |es| ==> es[i] != Free(k)
    ensures k in After(p, es).leased && After(p, es).leased[k] == p.leased[k]
    ensures Allocate(After(p, es), k).1 == Some(p.leased[k])
  {
    if es != [] {
      LeaseKept(p, es[..|es| - 1], k);
    }
  }

  // ---- Restart -------------------------------------------------------------------

  predicate Usable(base: Addr, bits: Bits, s: Saved) {
    s.ip.Some? ==> base < s.ip.value < base + Size(bits) - 1
  }

  predicate Apart(s: Saved, t: Saved) {
    s.key != t.key && (s.ip.Some? ==> s.ip != t.ip)
  }

  /** Stored peers: distinct keys, and distinct usable addresses where there is one. */
  predicate Restorable(base: Addr, bits: Bits, saved: seq<Saved>) {
    && (forall i :: 0 <= i < |saved| ==> Usable(base, bits, saved[i]))
    && (forall i, j :: 0 <= i < j < |saved| ==> Apart(saved[i], saved[j]))
  }

  /** Lease `k` of `p` is one of the saved addresses. */
  predicate FromSaved(p: Pool, saved: seq<Saved>, k: Key)
    requires k in p.leased
  {
    Saved(k, Some(p.leased[k])) in saved
  }

  predicate Restored(p: Pool, saved: seq<Saved>) {
    && (forall k :: k in p.leased ==> FromSaved(p, saved, k))
    && (forall s :: s in saved && s.ip.Some? ==> s.key in p.leased && s.ip == Some(p.leased[s.key]))
  }

  lemma PreloadStep(p: Pool, saved: seq<Saved>, s: Saved)
    requires Sound(p) && Restored(p, saved)
    requires Usable(p.base, p.bits, s) && forall t :: t in saved ==> Apart(t, s)
    ensures var q := PreloadOne(p, s);
      Sound(q) && q.base == p.base && q.bits == p.bits && Restored(q, saved + [s])
  {
    var q := PreloadOne(p, s);
    if s.ip.Some? {
      assert q.next == if s.ip.value >= p.next then s.ip.value + 1 else p.next;
      assert s.key !in p.leased by {
        assert s.key in p.leased ==> FromSaved(p, saved, s.key);
      }
      forall k | k in p.leased
        ensures k != s.key && q.leased[k] == p.leased[k] && p.leased[k] != s.ip.value
      {
        assert FromSaved(p, saved, k);
      }
    }
    forall k | k in q.leased
      ensures FromSaved(q, saved + [s], k)
    {
      assert k in p.leased ==> FromSaved(p, saved, k);
    }
  }

  lemma {:induction false} PreloadRestores(base: Addr, bits: Bits, saved: seq<Saved>)
    requires IsBlock(base, bits) && bits <= 30 && Restorable(base, bits, saved)
    ensures var p := Preload(New(base, bits), saved);
      Sound(p) && p.base == base && p.bits == bits && Restored(p, saved)
  {
    if saved == [] {
      NewSound(base, bits);
    } else {
      var front, s := saved[..|saved| - 1], saved[|saved| - 1];
      RestorableFront(base, bits, saved);
      PreloadRestores(base, bits, front);
      PreloadStep(Preload(New(base, bits), front), front, s);
      assert saved == front + [s];
    }
  }

  lemma RestorableFront(base: Addr, bits: Bits, saved: seq<Saved>)
    requires Restorable(base, bits, saved) && saved != []
    ensures var front, s := saved[..|saved| - 1], saved[|saved| - 1];
      && Restorable(base, bits, front)
      && Usable(base, bits, s)
      && forall t :: t in front ==> Apart(t, s)
  {
  }

  /** After a restart every peer with an address gets it back, and no other key ever
      does. */
  lemma {:induction false} RestartKeepsAddresses(
    base: Addr, bits: Bits, saved: seq<Saved>, es: seq<Event>, i: nat, j: nat)
    requires IsBlock(base, bits) && bits <= 30 && Restorable(base, bits, saved)
    requires i < |saved| && saved[i].ip.Some? && j < |es|
    ensures var p := Preload(New(base, bits), saved);
      && Allocate(p, saved[i].key).1 == saved[i].ip
      && (Result(p, es, j) == saved[i].ip ==> es[j].key == saved[i].key)
  {
    PreloadRestores(base, bits, saved);
    var p := Preload(New(base, bits), saved);
    assert saved[i] in saved;
    if Result(p, es, j) == saved[i].ip {
      ResultLeased(p, es, j);
      LeaseOrigin(p, es, 0, j + 1, es[j].key);
      assert es[..0] == [];
    }
  }
}
