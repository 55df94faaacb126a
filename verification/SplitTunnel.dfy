/** Exit-node routing: two half-internet routes into the mesh beside the real default
    route, and host routes that keep the control servers on the old gateway. */
module SplitTunnel {
  import opened Domain

  /** The addresses whose first `len` bits are `top`. */
  datatype Block = Block(len: Bits, top: int)

  datatype NextHop = Via(gateway: Addr, iface: string) | Mesh

  type Table = map<Block, NextHop>

  predicate Covers(p: Block, a: Addr) {
    a / Pow2(32 - p.len) == p.top
  }

  /** The prefix of length `n` that covers `a`. */
  function At(a: Addr, n: Bits): (p: Block)
    ensures Covers(p, a)
  {
    Block(n, a / Pow2(32 - n))
  }

  const DEFAULT := Block(0, 0)
  const LOW_HALF := Block(1, 0)
  const HIGH_HALF := Block(1, 1)

  function HostBlock(a: Addr): Block {
    Block(32, a)
  }

  // ---- Longest match -------------------------------------------------------------

  /** The longest entry of length at most `n` that covers `a`. */
  function BestFrom(t: Table, a: Addr, n: Bits): Option<Block> {
    if At(a, n) in t then Some(At(a, n)) else if n == 0 then None else BestFrom(t, a, n - 1)
  }

  function Best(t: Table, a: Addr): Option<Block> {
    BestFrom(t, a, 32)
  }

  lemma {:induction false} BestFromLongest(t: Table, a: Addr, n: Bits)
    ensures var b := BestFrom(t, a, n);
      && (b.Some? ==> b.value in t && Covers(b.value, a) && b.value.len <= n)
      && (forall p :: p in t && Covers(p, a) && p.len <= n ==> b.Some? && p.len <= b.value.len)
  {
    if At(a, n) !in t && n > 0 {
      BestFromLongest(t, a, n - 1);
    }
    forall p | p in t && Covers(p, a) && p.len == n
      ensures p == At(a, n)
    {
    }
  }

  /** The lookup finds an entry that covers the destination and is the longest to do so. */
  lemma BestIsLongest(t: Table, a: Addr)
    ensures var b := Best(t, a);
      && (b.Some? ==> b.value in t && Covers(b.value, a))
      && (forall p :: p in t && Covers(p, a) ==> b.Some? && p.len <= b.value.len)
  {
    BestFromLongest(t, a, 32);
  }

  function Lookup(t: Table, a: Addr): Option<NextHop>
  {
    BestFromLongest(t, a, 32);
    if Best(t, a).Some? then Some(t[Best(t, a).value]) else None
  }

  // ---- The engine's operations ---------------------------------------------------

  /** A control server: whether its name resolved, to what, and whether the host route
      could be added. */
  datatype Control = Control(resolved: bool, ip: Addr, added: bool)

  predicate IsLoopback(a: Addr) {
    a / 0x100_0000 == 127
  }

  predicate Pinned(c: Control) {
    c.resolved && !IsLoopback(c.ip) && c.added
  }

  function Pins(cs: seq<Control>): (r: seq<Addr>)
    ensures forall a :: a in r <==> exists i :: 0 <= i < |cs| && Pinned(cs[i]) && cs[i].ip == a
  {
    if cs == [] then []
    else
      var c := cs[|cs| - 1];
      var front := Pins(cs[..|cs| - 1]);
      assert forall i :: 0 <= i < |cs| - 1 ==> cs[..|cs| - 1][i] == cs[i];
      if Pinned(c) then front + [c.ip] else front
  }

  function PinAll(t: Table, hosts: seq<Addr>, hop: NextHop): Table {
    if hosts == [] then t else PinAll(t, hosts[..|hosts| - 1], hop)[HostBlock(hosts[|hosts| - 1]) := hop]
  }

  /** A route is deleted only from the interface it is on. */
  function Unroute(t: Table, p: Block, hop: NextHop): Table {
    if p in t && OnSame(t[p], hop) then t - {p} else t
  }

  predicate OnSame(a: NextHop, b: NextHop) {
    match (a, b)
    case (Mesh, Mesh) => true
    case (Via(_, i), Via(_, j)) => i == j
    case _ => false
  }

  function UnpinAll(t: Table, hosts: seq<Addr>, hop: NextHop): Table {
    if hosts == [] then t else Unroute(UnpinAll(t, hosts[..|hosts| - 1], hop), HostBlock(hosts[|hosts| - 1]), hop)
  }

  predicate HasGateway(t: Table) {
    DEFAULT in t && t[DEFAULT].Via?
  }

  /** Which of the two half-internet routes could be added. */
  datatype Halves = Halves(low: bool, high: bool)

  predicate Added(h: Halves, p: Block) {
    (p == LOW_HALF && h.low) || (p == HIGH_HALF && h.high)
  }

  function AddHalf(t: Table, p: Block, added: bool): Table {
    if added then t[p := Mesh] else t
  }

  function Activate(t: Table, hosts: seq<Addr>, h: Halves): Table
    requires HasGateway(t)
  {
    AddHalf(AddHalf(PinAll(t, hosts, t[DEFAULT]), LOW_HALF, h.low), HIGH_HALF, h.high)
  }

  function Deactivate(t: Table, hosts: seq<Addr>, hop: NextHop): Table {
    UnpinAll(Unroute(Unroute(t, LOW_HALF, Mesh), HIGH_HALF, Mesh), hosts, hop)
  }

  datatype ExitNode = ExitNode(gateway: NextHop, hosts: seq<Addr>)

  class Tunnel {
    var table: Table
    var exitNode: Option<ExitNode>

    method ActivateExitNode(controls: seq<Control>, h: Halves)
      modifies this
      ensures !old(HasGateway(table)) ==> table == old(table) && exitNode == old(exitNode)
      ensures old(HasGateway(table)) ==>
        && table == Activate(old(table), Pins(controls), h)
        && exitNode == Some(ExitNode(old(table)[DEFAULT], Pins(controls)))
    {
      if !(DEFAULT in table && table[DEFAULT].Via?) {
        return;
      }
      var hop := table[DEFAULT];
      var hosts := [];
      for i := 0 to |controls|
        invariant hosts == Pins(controls[..i]) && table == PinAll(old(table), hosts, hop)
      {
        assert controls[..i + 1][..i] == controls[..i];
        var c := controls[i];
        if c.resolved && !IsLoopback(c.ip) && c.added {
          table := table[HostBlock(c.ip) := hop];
          assert (hosts + [c.ip])[..|hosts|] == hosts;
          hosts := hosts + [c.ip];
        }
      }
      assert controls[..|controls|] == controls;
      if h.low {
        table := table[LOW_HALF := Mesh];
      }
      if h.high {
        table := table[HIGH_HALF := Mesh];
      }
      exitNode := Some(ExitNode(hop, hosts));
    }

    method DeactivateExitNode()
      modifies this
      ensures exitNode == None
      ensures old(exitNode).None? ==> table == old(table)
      ensures old(exitNode).Some? ==>
        table == Deactivate(old(table), old(exitNode).value.hosts, old(exitNode).value.gateway)
    {
      if exitNode.None? {
        return;
      }
      table := Unroute(table, LOW_HALF, Mesh);
      table := Unroute(table, HIGH_HALF, Mesh);
      var e := exitNode.value;
      ghost var start := table;
      for i := 0 to |e.hosts|
        invariant table == UnpinAll(start, e.hosts[..i], e.gateway)
      {
        assert e.hosts[..i + 1][..i] == e.hosts[..i];
        table := Unroute(table, HostBlock(e.hosts[i]), e.gateway);
      }
      assert e.hosts[..|e.hosts|] == e.hosts;
      exitNode := None;
    }
  }

  // ---- Where packets go ----------------------------------------------------------

  lemma {:induction false} PinAllAt(t: Table, hosts: seq<Addr>, hop: NextHop, p: Block)
    ensures var pinned := p.len == 32 && p.top in hosts;
      && (p in PinAll(t, hosts, hop) <==> p in t || pinned)
      && (pinned ==> PinAll(t, hosts, hop)[p] == hop)
      && (p in t && !pinned ==> PinAll(t, hosts, hop)[p] == t[p])
  {
    if hosts != [] {
      PinAllAt(t, hosts[..|hosts| - 1], hop, p);
      assert hosts == hosts[..|hosts| - 1] + [hosts[|hosts| - 1]];
    }
  }

  /** Apart from the pinned hosts and the added halves the table is as it was. */
  lemma ActivateAt(t: Table, hosts: seq<Addr>, h: Halves, p: Block)
    requires HasGateway(t) && !Added(h, p) && !(p.len == 32 && p.top in hosts)
    ensures p in Activate(t, hosts, h) <==> p in t
    ensures p in t ==> Activate(t, hosts, h)[p] == t[p]
  {
    PinAllAt(t, hosts, t[DEFAULT], p);
  }

  lemma HalfCovers(a: Addr)
    ensures At(a, 1) == LOW_HALF || At(a, 1) == HIGH_HALF
    ensures At(a, 0) == DEFAULT && At(a, 32) == HostBlock(a)
  {
    Powers();
  }

  lemma Powers()
    ensures Pow2(0) == 1 && Pow2(31) == 0x8000_0000 && Pow2(32) == ADDRESS_SPACE
  {
    assert Pow2(8) == 0x100;
    assert Pow2(16) == 0x1_0000;
    assert Pow2(24) == 0x100_0000;
  }

  lemma {:induction false} ActivatedBest(t: Table, hosts: seq<Addr>, h: Halves, a: Addr, n: Bits)
    requires HasGateway(t) && n >= 1 && (n == 32 ==> a !in hosts)
    ensures var b := BestFrom(t, a, n);
      BestFrom(Activate(t, hosts, h), a, n)
      == if !Added(h, At(a, 1)) || (b.Some? && b.value.len >= 2) then b else Some(At(a, 1))
  {
    HalfCovers(a);
    if n == 1 {
      ActivateAt(t, hosts, h, DEFAULT);
      if !Added(h, At(a, 1)) {
        ActivateAt(t, hosts, h, At(a, 1));
      }
    } else {
      ActivateAt(t, hosts, h, At(a, n));
      if At(a, n) !in t {
        ActivatedBest(t, hosts, h, a, n - 1);
      }
    }
  }

  /** After activation a pinned control server is reached by the old gateway; in a half
      that was added, what was on the default route or on a half-internet route leaves by
      the mesh; every other destination is routed as before. */
  lemma ActivatedRouting(t: Table, hosts: seq<Addr>, h: Halves, a: Addr)
    requires HasGateway(t)
    ensures Lookup(Activate(t, hosts, h), a)
      == if a in hosts then Some(t[DEFAULT])
         else if !Added(h, At(a, 1)) || (Best(t, a).Some? && Best(t, a).value.len >= 2) then Lookup(t, a)
         else Some(Mesh)
  {
    HalfCovers(a);
    PinAllAt(t, hosts, t[DEFAULT], HostBlock(a));
    if a !in hosts {
      ActivatedBest(t, hosts, h, a, 32);
      UnpinnedRouting(t, hosts, h, a);
    }
  }

  lemma UnpinnedRouting(t: Table, hosts: seq<Addr>, h: Halves, a: Addr)
    requires HasGateway(t) && a !in hosts
    requires Best(Activate(t, hosts, h), a)
      == if !Added(h, At(a, 1)) || (Best(t, a).Some? && Best(t, a).value.len >= 2) then Best(t, a) else Some(At(a, 1))
    ensures Lookup(Activate(t, hosts, h), a)
      == if !Added(h, At(a, 1)) || (Best(t, a).Some? && Best(t, a).value.len >= 2) then Lookup(t, a) else Some(Mesh)
  {
    BestFromLongest(t, a, 32);
    HalfCovers(a);
    if Best(t, a).Some? {
      var b := Best(t, a).value;
      CoverIsAt(b, a);
      if b.len >= 2 || !Added(h, At(a, 1)) {
        ActivateAt(t, hosts, h, b);
      }
    }
  }

  lemma CoverIsAt(p: Block, a: Addr)
    requires Covers(p, a)
    ensures p == At(a, p.len) && (p.len == 32 ==> p.top == a)
  {
    HalfCovers(a);
  }

  /** With both halves added to a table without half-internet routes: traffic that used
      the default route, and only that traffic, moves to the mesh, control servers
      excepted. */
  lemma OnlyDefaultTrafficMoves(t: Table, hosts: seq<Addr>, a: Addr)
    requires HasGateway(t) && LOW_HALF !in t && HIGH_HALF !in t && a !in hosts
    ensures Best(t, a).Some?
    ensures Best(t, a).value == DEFAULT ==> Lookup(Activate(t, hosts, Halves(true, true)), a) == Some(Mesh)
    ensures Best(t, a).value != DEFAULT ==> Lookup(Activate(t, hosts, Halves(true, true)), a) == Lookup(t, a)
  {
    ActivatedRouting(t, hosts, Halves(true, true), a);
    BestIsLongest(t, a);
    HalfCovers(a);
    assert Covers(DEFAULT, a);
    CoverIsAt(Best(t, a).value, a);
  }

  // ---- Undoing it ----------------------------------------------------------------

  lemma {:induction false} UnpinAllAt(t: Table, hosts: seq<Addr>, hop: NextHop, p: Block)
    ensures var gone := p in t && p.len == 32 && p.top in hosts && OnSame(t[p], hop);
      && (p in UnpinAll(t, hosts, hop) <==> p in t && !gone)
      && (p in UnpinAll(t, hosts, hop) ==> UnpinAll(t, hosts, hop)[p] == t[p])
  {
    if hosts != [] {
      UnpinAllAt(t, hosts[..|hosts| - 1], hop, p);
      assert hosts == hosts[..|hosts| - 1] + [hosts[|hosts| - 1]];
    }
  }

  /** The entries that deactivation takes away: the pins, and the halves that lead into
      the mesh by then. */
  predicate Overwritten(t: Table, hosts: seq<Addr>, h: Halves, p: Block) {
    || (p.len == 32 && p.top in hosts)
    || Added(h, p)
    || ((p == LOW_HALF || p == HIGH_HALF) && p in t && t[p].Mesh?)
  }

  /** One entry after activating and deactivating. */
  lemma RoundTripAt(t: Table, hosts: seq<Addr>, h: Halves, p: Block)
    requires HasGateway(t)
    ensures var u := Deactivate(Activate(t, hosts, h), hosts, t[DEFAULT]);
      (p in u <==> p in t && !Overwritten(t, hosts, h, p)) && (p in u ==> u[p] == t[p])
  {
    var hop, a := t[DEFAULT], Activate(t, hosts, h);
    PinAllAt(t, hosts, hop, p);
    UnpinAllAt(Unroute(Unroute(a, LOW_HALF, Mesh), HIGH_HALF, Mesh), hosts, hop, p);
  }

  /** Deactivation restores the table exactly if it had none of the entries that it takes
      away. */
  lemma DeactivateRestoresIff(t: Table, hosts: seq<Addr>, h: Halves)
    requires HasGateway(t)
    ensures Deactivate(Activate(t, hosts, h), hosts, t[DEFAULT]) == t <==> forall p :: p in t ==> !Overwritten(t, hosts, h, p)
  {
    var u := Deactivate(Activate(t, hosts, h), hosts, t[DEFAULT]);
    forall p: Block
      ensures (p in u <==> p in t && !Overwritten(t, hosts, h, p)) && (p in u ==> u[p] == t[p])
    {
      RoundTripAt(t, hosts, h, p);
    }
  }
}
