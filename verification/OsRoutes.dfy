/** Incremental maintenance of the operating system's routes to the peers' networks. */
module OsRoutes {
  import opened Domain
  import opened Agent

  // ---- From the server's records to the agent's lists ----------------------------

  datatype Route = Route(network: string, gateway: Key, enabled: bool)

  function RoutesFrom(networks: seq<string>, gateway: Key): seq<Route> {
    seq(|networks|, i requires 0 <= i < |networks| => Route(networks[i], gateway, true))
  }

  /** The routes of a sync message: every advertised network, peer by peer. */
  function BuildRoutes(peers: seq<Peer>): seq<Route> {
    if peers == [] then []
    else
      var p := peers[|peers| - 1];
      BuildRoutes(peers[..|peers| - 1]) + RoutesFrom(p.routes, p.key)
  }

  /** The networks behind gateway `k`, in order. */
  function Behind(routes: seq<Route>, k: Key): seq<string> {
    if routes == [] then []
    else
      var r := routes[|routes| - 1];
      Behind(routes[..|routes| - 1], k) + if r.enabled && r.gateway == k then [r.network] else []
  }

  /** Networks by gateway. */
  type Networks = map<Key, seq<string>>

  type Directory = map<Key, PeerInfo>

  function At(m: Networks, k: Key): seq<string> {
    if k in m then m[k] else []
  }

  method RoutesByGateway(routes: seq<Route>) returns (m: Networks)
    ensures forall k :: At(m, k) == Behind(routes, k)
    ensures forall k :: k in m ==> m[k] != []
  {
    m := map[];
    for i := 0 to |routes|
      invariant forall k :: At(m, k) == Behind(routes[..i], k)
      invariant forall k :: k in m ==> m[k] != []
    {
      assert routes[..i + 1][..i] == routes[..i];
      var r := routes[i];
      if r.enabled {
        m := m[r.gateway := At(m, r.gateway) + [r.network]];
      }
    }
    assert routes[..|routes|] == routes;
  }

  lemma {:induction false} BehindConcat(a: seq<Route>, b: seq<Route>, k: Key)
    ensures Behind(a + b, k) == Behind(a, k) + Behind(b, k)
  {
    if b == [] {
      assert a + b == a;
    } else {
      BehindConcat(a, b[..|b| - 1], k);
      ConcatFront(a, b);
    }
  }

  lemma {:induction false} BehindOne(networks: seq<string>, gateway: Key, k: Key)
    ensures Behind(RoutesFrom(networks, gateway), k) == if gateway == k then networks else []
  {
    if networks != [] {
      var front := networks[..|networks| - 1];
      BehindOne(front, gateway, k);
      assert RoutesFrom(networks, gateway)[..|networks| - 1] == RoutesFrom(front, gateway);
      assert networks == front + [networks[|networks| - 1]];
    }
  }

  lemma BuildLast(peers: seq<Peer>, k: Key)
    requires peers != []
    ensures var p := peers[|peers| - 1];
      Behind(BuildRoutes(peers), k)
      == Behind(BuildRoutes(peers[..|peers| - 1]), k) + if p.key == k then p.routes else []
  {
    var p := peers[|peers| - 1];
    BehindConcat(BuildRoutes(peers[..|peers| - 1]), RoutesFrom(p.routes, p.key), k);
    BehindOne(p.routes, p.key, k);
  }

  lemma {:induction false} RegroupAbsent(peers: seq<Peer>, k: Key)
    requires forall p :: p in peers ==> p.key != k
    ensures Behind(BuildRoutes(peers), k) == []
  {
    if peers != [] {
      assert peers[|peers| - 1] in peers;
      RegroupAbsent(peers[..|peers| - 1], k);
      BuildLast(peers, k);
    }
  }

  /** Regrouping the routes of a message by gateway gives back each peer's own list. */
  lemma {:induction false} RegroupInverts(peers: seq<Peer>, i: nat)
    requires i < |peers| && forall j :: 0 <= j < |peers| && j != i ==> peers[j].key != peers[i].key
    ensures Behind(BuildRoutes(peers), peers[i].key) == peers[i].routes
  {
    var front, k := peers[..|peers| - 1], peers[i].key;
    BuildLast(peers, k);
    if i == |peers| - 1 {
      RegroupAbsent(front, k);
    } else {
      assert front[i] == peers[i];
      RegroupInverts(front, i);
    }
  }

  // ---- One peer ------------------------------------------------------------------

  /** The elements of `a` that are not in `b`, in order. */
  function Without(a: seq<string>, b: seq<string>): (r: seq<string>)
    ensures forall x :: x in r <==> x in a && x !in b
  {
    if a == [] then []
    else
      var x := a[|a| - 1];
      var front := Without(a[..|a| - 1], b);
      assert forall y :: y in a <==> y in a[..|a| - 1] || y == x;
      if x in b then front else front + [x]
  }

  /** Serves as both differences: old without new, and new without old. */
  method Difference(a: seq<string>, b: seq<string>) returns (out: seq<string>)
    ensures out == Without(a, b)
  {
    var seen := {};
    for i := 0 to |b|
      invariant forall x :: x in seen <==> x in b[..i]
    {
      seen := seen + {b[i]};
    }
    out := [];
    for i := 0 to |a|
      invariant out == Without(a[..i], b)
    {
      assert a[..i + 1][..i] == a[..i];
      if a[i] !in seen {
        out := out + [a[i]];
      }
    }
    assert a[..|a|] == a;
  }

  function Plain(cidrs: seq<string>): set<string> {
    set r | r in cidrs && !IsDefault(r)
  }

  /** `applied` is what the agent believes is installed; `table` is what is installed on
      the mesh interface. */
  datatype Routes = Routes(applied: Networks, table: set<string>)

  /** A peer's list changes; a list that becomes empty is not recorded. */
  function Apply(s: Routes, k: Key, before: seq<string>, after: seq<string>): Routes {
    Routes(
      if after == [] then s.applied else s.applied[k := after],
      s.table - Plain(Without(before, after)) + Plain(Without(after, before)))
  }

  // ---- One sync ------------------------------------------------------------------

  function Visit(s: Routes, known: Directory, p: PeerInfo, lists: Networks): Routes {
    Apply(s, p.key, if p.key in known then At(s.applied, p.key) else [], At(lists, p.key))
  }

  function VisitAll(
    s: Routes, known: Directory, ps: seq<PeerInfo>, lists: Networks, self: Key): Routes
  {
    if ps == [] then s
    else
      var q := VisitAll(s, known, ps[..|ps| - 1], lists, self);
      var p := ps[|ps| - 1];
      if p.key == self then q else Visit(q, known, p, lists)
  }

  /** A listed key had `r` applied. */
  predicate AppliedTo(applied: Networks, keys: set<Key>, r: string) {
    exists k :: k in keys && r in At(applied, k)
  }

  function Withdraw(s: Routes, gone: set<Key>): Routes {
    Routes(s.applied - gone, set r | r in s.table && (IsDefault(r) || !AppliedTo(s.applied, gone, r)))
  }

  function SyncRoutes(
    s: Routes, known: Directory, incoming: seq<PeerInfo>, lists: Networks, self: Key): Routes
  {
    Withdraw(VisitAll(s, known, Changed(known, incoming), lists, self), Gone(known, incoming) - {self})
  }

  class Router {
    const self: Key
    const manager: Manager
    var applied: Networks
    var table: set<string>

    constructor (self: Key)
      ensures this.self == self && fresh(manager) && Value() == Routes(map[], {}) && manager.peers == map[]
    {
      this.self := self;
      applied, table := map[], {};
      manager := new Manager();
    }

    function Value(): Routes
      reads this
    {
      Routes(applied, table)
    }

    method Uninstall(cidrs: seq<string>)
      modifies this`table
      ensures table == old(table) - Plain(cidrs)
    {
      for i := 0 to |cidrs|
        invariant table == old(table) - Plain(cidrs[..i])
      {
        assert cidrs[..i + 1] == cidrs[..i] + [cidrs[i]];
        if !IsDefault(cidrs[i]) {
          table := table - {cidrs[i]};
        }
      }
      assert cidrs[..|cidrs|] == cidrs;
    }

    method Install(cidrs: seq<string>)
      modifies this`table
      ensures table == old(table) + Plain(cidrs)
    {
      for i := 0 to |cidrs|
        invariant table == old(table) + Plain(cidrs[..i])
      {
        assert cidrs[..i + 1] == cidrs[..i] + [cidrs[i]];
        if !IsDefault(cidrs[i]) {
          table := table + {cidrs[i]};
        }
      }
      assert cidrs[..|cidrs|] == cidrs;
    }

    method ApplyOSRoutes(k: Key, before: seq<string>, after: seq<string>)
      modifies this
      ensures Value() == Apply(old(Value()), k, before, after)
    {
      var removed := Difference(before, after);
      Uninstall(removed);
      var added := Difference(after, before);
      Install(added);
      if after != [] {
        applied := applied[k := after];
      }
    }

    method ApplyAdded(ghost known: Directory, added: seq<PeerInfo>, lists: Networks)
      requires forall p :: p in added ==> p.key !in known
      modifies this
      ensures Value() == VisitAll(old(Value()), known, added, lists, self)
    {
      for i := 0 to |added|
        invariant Value() == VisitAll(old(Value()), known, added[..i], lists, self)
      {
        assert added[..i + 1][..i] == added[..i];
        var k := added[i].key;
        if k != self {
          ApplyOSRoutes(k, [], At(lists, k));
        }
      }
      assert added[..|added|] == added;
    }

    method ApplyUpdated(
      ghost known: Directory, ghost ps: seq<PeerInfo>, updated: seq<(PeerInfo, PeerInfo)>, lists: Networks)
      requires Pairs(known, ps, updated)
      modifies this
      ensures Value() == VisitAll(old(Value()), known, ps, lists, self)
    {
      for i := 0 to |updated|
        invariant Value() == VisitAll(old(Value()), known, ps[..i], lists, self)
      {
        assert ps[..i + 1][..i] == ps[..i];
        assert IsUpdate(known, ps[i], updated[i]);
        var k := updated[i].1.key;
        if k != self {
          ApplyOSRoutes(k, At(applied, k), At(lists, k));
        }
      }
      assert ps[..|updated|] == ps;
    }

    method ApplyRemoved(removed: seq<PeerInfo>)
      modifies this
      ensures Value() == Withdraw(old(Value()), KeysBut(removed, self))
    {
      for i := 0 to |removed|
        invariant Value() == Withdraw(old(Value()), KeysBut(removed[..i], self))
      {
        var k := removed[i].key;
        assert removed[..i + 1] == removed[..i] + [removed[i]];
        ButSnoc(removed[..i], removed[i], self);
        if k != self {
          WithdrawStep(old(Value()), KeysBut(removed[..i], self), k);
          ApplyOSRoutes(k, At(applied, k), []);
          applied := applied - {k};
        }
      }
      assert removed[..|removed|] == removed;
    }

    method ApplySync(incoming: seq<PeerInfo>, routes: seq<Route>)
      returns (ghost lists: Networks)
      requires Keyed(manager.peers)
      modifies this, manager
      ensures forall k :: At(lists, k) == Behind(routes, k)
      ensures Value() == SyncRoutes(old(Value()), old(manager.peers), incoming, lists, self)
      ensures manager.peers == Index(incoming)
    {
      ghost var known := manager.peers;
      var byGateway := RoutesByGateway(routes);
      lists := byGateway;
      var added, updated, removed := manager.Diff(incoming);
      forall p | p in added
        ensures p.key !in known
      {
        ChangedMembers(known, incoming, p);
      }
      ApplyAdded(known, added, byGateway);
      ApplyUpdated(known, Updated(known, incoming), updated, byGateway);
      VisitAllConcat(old(Value()), known, added, Updated(known, incoming), byGateway, self);
      ApplyRemoved(removed);
      RemovedKeys(known, incoming, removed, self);
    }
  }

  lemma WithdrawStep(s: Routes, gone: set<Key>, k: Key)
    ensures var q := Withdraw(s, gone);
      var t := Apply(q, k, At(q.applied, k), []);
      t.(applied := t.applied - {k}) == Withdraw(s, gone + {k})
  {
  }

  lemma {:induction false} VisitAllConcat(
    s: Routes, known: Directory, a: seq<PeerInfo>, b: seq<PeerInfo>, lists: Networks, self: Key)
    ensures VisitAll(s, known, a + b, lists, self) == VisitAll(VisitAll(s, known, a, lists, self), known, b, lists, self)
  {
    if b == [] {
      assert a + b == a;
    } else {
      VisitAllConcat(s, known, a, b[..|b| - 1], lists, self);
      ConcatFront(a, b);
    }
  }

  // ---- What a sync does to one network -------------------------------------------

  /** The networks a listed peer advertises: what follows its own address. */
  function Advertised(p: PeerInfo): seq<string> {
    if p.allowed == [] then [] else p.allowed[1..]
  }

  predicate EachOnce(ps: seq<PeerInfo>) {
    forall i, j :: 0 <= i < j < |ps| ==> ps[i].key != ps[j].key
  }

  /** A message as the server builds it: each key once, and the networks of a peer both
      in its record and in its route list. */
  predicate Built(incoming: seq<PeerInfo>, lists: Networks) {
    EachOnce(incoming) && forall p :: p in incoming ==> At(lists, p.key) == Advertised(p)
  }

  /** A stored peer as a message carries it; `text` writes its address. */
  function Listed(p: Peer, text: Option<Addr> -> string): PeerInfo {
    PeerInfo(p.key, text(p.ip), p.hostname, [text(p.ip) + "/32"] + p.routes, p.dnsLabel)
  }

  function ListAll(peers: seq<Peer>, text: Option<Addr> -> string): seq<PeerInfo> {
    seq(|peers|, i requires 0 <= i < |peers| => Listed(peers[i], text))
  }

  /** The message the server makes of stored peers is such a message, once the agent has
      regrouped its routes. */
  lemma {:induction false} ServerMessageBuilt(peers: seq<Peer>, text: Option<Addr> -> string, lists: Networks)
    requires forall i, j :: 0 <= i < j < |peers| ==> peers[i].key != peers[j].key
    requires forall k :: At(lists, k) == Behind(BuildRoutes(peers), k)
    ensures Built(ListAll(peers, text), lists)
  {
    var ps := ListAll(peers, text);
    forall p | p in ps
      ensures At(lists, p.key) == Advertised(p)
    {
      var i :| 0 <= i < |ps| && ps[i] == p;
      RegroupInverts(peers, i);
      assert p.allowed[1..] == peers[i].routes;
    }
  }

  lemma OnceIsDistinct(ps: seq<PeerInfo>)
    requires EachOnce(ps)
    ensures DistinctKeys(ps)
  {
    forall p, q | p in ps && q in ps && p.key == q.key
      ensures p == q
    {
      var i :| 0 <= i < |ps| && ps[i] == p;
      var j :| 0 <= j < |ps| && ps[j] == q;
      assert !(i < j) && !(j < i);
    }
  }

  predicate Visited(ps: seq<PeerInfo>, k: Key) {
    exists p :: p in ps && p.key == k
  }

  lemma OnceSnoc(ps: seq<PeerInfo>, p: PeerInfo)
    requires EachOnce(ps) && !Visited(ps, p.key)
    ensures EachOnce(ps + [p])
  {
    forall i | 0 <= i < |ps|
      ensures ps[i].key != p.key
    {
      assert ps[i] in ps;
    }
  }

  lemma OnceFront(ps: seq<PeerInfo>)
    requires EachOnce(ps) && ps != []
    ensures EachOnce(ps[..|ps| - 1]) && !Visited(ps[..|ps| - 1], ps[|ps| - 1].key)
  {
  }

  /** What is visited is visited once. */
  lemma {:induction false} FilteredOnce(known: Directory, incoming: seq<PeerInfo>)
    requires EachOnce(incoming)
    ensures EachOnce(Added(known, incoming)) && EachOnce(Updated(known, incoming))
  {
    if incoming != [] {
      var front, p := incoming[..|incoming| - 1], incoming[|incoming| - 1];
      OnceFront(incoming);
      FilteredOnce(known, front);
      forall q | q in Added(known, front) + Updated(known, front)
        ensures q.key != p.key
      {
        ChangedMembers(known, front, q);
      }
      if p.key !in known {
        OnceSnoc(Added(known, front), p);
      } else if Differs(known[p.key], p) {
        OnceSnoc(Updated(known, front), p);
      }
    }
  }

  lemma ChangedOnce(known: Directory, incoming: seq<PeerInfo>)
    requires EachOnce(incoming)
    ensures EachOnce(Changed(known, incoming))
  {
    FilteredOnce(known, incoming);
    var a, b := Added(known, incoming), Updated(known, incoming);
    forall i, j | 0 <= i < |a| && 0 <= j < |b|
      ensures a[i].key != b[j].key
    {
      ChangedMembers(known, incoming, a[i]);
      ChangedMembers(known, incoming, b[j]);
    }
  }

  lemma {:induction false} VisitedIff(known: Directory, incoming: seq<PeerInfo>, k: Key)
    requires DistinctKeys(incoming)
    ensures var idx := Index(incoming);
      Visited(Changed(known, incoming), k) <==> k in idx && (k !in known || Differs(known[k], idx[k]))
  {
    IndexKnows(incoming, k);
    var idx := Index(incoming);
    if k in idx {
      ChangedMembers(known, incoming, idx[k]);
    }
    if Visited(Changed(known, incoming), k) {
      var p :| p in Changed(known, incoming) && p.key == k;
      ChangedMembers(known, incoming, p);
      IndexOfDistinct(incoming, p);
    }
  }

  lemma VisitedSnoc(ps: seq<PeerInfo>, p: PeerInfo, k: Key)
    ensures Visited(ps + [p], k) <==> Visited(ps, k) || p.key == k
  {
    assert p in ps + [p];
    assert forall q :: q in ps ==> q in ps + [p];
  }

  lemma {:induction false} VisitAllList(
    s: Routes, known: Directory, ps: seq<PeerInfo>, lists: Networks, self: Key, k: Key)
    ensures At(VisitAll(s, known, ps, lists, self).applied, k)
      == if k != self && Visited(ps, k) && At(lists, k) != [] then At(lists, k) else At(s.applied, k)
  {
    if ps != [] {
      var front, p := ps[..|ps| - 1], ps[|ps| - 1];
      assert ps == front + [p];
      VisitAllList(s, known, front, lists, self, k);
      VisitedSnoc(front, p, k);
    }
  }

  /** The list a key has applied when a sync begins. */
  type Had = Key -> seq<string>

  ghost predicate Agrees(had: Had, s: Routes, known: Directory) {
    forall k :: had(k) == if k in known then At(s.applied, k) else []
  }

  /** Visiting `p` installs `r`. */
  predicate Installs(had: Had, p: PeerInfo, r: string) {
    r in Advertised(p) && r !in had(p.key)
  }

  /** Visiting `p` takes `r` away. */
  predicate Uninstalls(had: Had, p: PeerInfo, r: string) {
    r in had(p.key) && r !in Advertised(p)
  }

  predicate Changes(had: Had, p: PeerInfo, self: Key, r: string) {
    p.key != self && (Installs(had, p, r) || Uninstalls(had, p, r))
  }

  /** The last visit of `ps` that changes `r`, or -1. */
  function LastChange(had: Had, ps: seq<PeerInfo>, self: Key, r: string): (i: int)
    ensures -1 <= i < |ps| && (i >= 0 ==> Changes(had, ps[i], self, r))
    ensures forall j :: i < j < |ps| ==> !Changes(had, ps[j], self, r)
  {
    if ps == [] then -1
    else if Changes(had, ps[|ps| - 1], self, r) then |ps| - 1
    else LastChange(had, ps[..|ps| - 1], self, r)
  }

  lemma VisitTable(s: Routes, known: Directory, p: PeerInfo, lists: Networks, had: Had, r: string)
    requires At(lists, p.key) == Advertised(p) && had(p.key) == (if p.key in known then At(s.applied, p.key) else [])
    ensures r in Visit(s, known, p, lists).table
      <==> if IsDefault(r) then r in s.table else Installs(had, p, r) || (r in s.table && !Uninstalls(had, p, r))
  {
  }

  /** The last visit that changes a network decides whether it is installed. */
  lemma {:induction false} VisitAllTable(
    s: Routes, known: Directory, ps: seq<PeerInfo>, lists: Networks, self: Key, had: Had, r: string)
    requires EachOnce(ps) && Agrees(had, s, known) && forall p :: p in ps ==> At(lists, p.key) == Advertised(p)
    ensures var i := LastChange(had, ps, self, r);
      r in VisitAll(s, known, ps, lists, self).table
      <==> if IsDefault(r) || i < 0 then r in s.table else Installs(had, ps[i], r)
  {
    if ps != [] {
      var front, p := ps[..|ps| - 1], ps[|ps| - 1];
      OnceFront(ps);
      VisitAllTable(s, known, front, lists, self, had, r);
      VisitAllList(s, known, front, lists, self, p.key);
      VisitTable(VisitAll(s, known, front, lists, self), known, p, lists, had, r);
    }
  }

  /** A peer that left had `r` applied. */
  predicate Withdrawn(had: Had, known: Directory, incoming: seq<PeerInfo>, self: Key, r: string) {
    exists k :: k in Gone(known, incoming) && k != self && r in had(k)
  }

  /** What a sync makes of one network: taken away with a peer that left, else decided by
      the last visit that changes it, else as it was. */
  lemma {:induction false} SyncTable(
    s: Routes, known: Directory, incoming: seq<PeerInfo>, lists: Networks, self: Key, had: Had, r: string)
    requires Built(incoming, lists) && Agrees(had, s, known)
    ensures var ps := Changed(known, incoming);
      var i := LastChange(had, ps, self, r);
      r in SyncRoutes(s, known, incoming, lists, self).table
      <==> if IsDefault(r) then r in s.table
           else !Withdrawn(had, known, incoming, self, r) && if i < 0 then r in s.table else Installs(had, ps[i], r)
  {
    var ps := Changed(known, incoming);
    OnceIsDistinct(incoming);
    ChangedOnce(known, incoming);
    forall p | p in ps
      ensures At(lists, p.key) == Advertised(p)
    {
      ChangedMembers(known, incoming, p);
    }
    VisitAllTable(s, known, ps, lists, self, had, r);
    var q := VisitAll(s, known, ps, lists, self);
    forall k | k in Gone(known, incoming)
      ensures At(q.applied, k) == had(k)
    {
      VisitAllList(s, known, ps, lists, self, k);
      VisitedIff(known, incoming, k);
    }
    assert AppliedTo(q.applied, Gone(known, incoming) - {self}, r) <==> Withdrawn(had, known, incoming, self, r);
  }

  // ---- Runs ----------------------------------------------------------------------

  /** The networks that should be installed. */
  function Wanted(known: Directory, self: Key): set<string> {
    set k, r | k in known && k != self && r in Advertised(known[k]) && !IsDefault(r) :: r
  }

  predicate Wants(known: Directory, self: Key, k: Key, r: string) {
    k in known && k != self && r in Advertised(known[k]) && !IsDefault(r)
  }

  datatype Message = Message(peers: seq<PeerInfo>, lists: Networks)

  function Known(ms: seq<Message>): Directory {
    if ms == [] then map[] else Index(ms[|ms| - 1].peers)
  }

  function Run(ms: seq<Message>, self: Key): Routes {
    if ms == [] then Routes(map[], {})
    else
      var front, m := ms[..|ms| - 1], ms[|ms| - 1];
      SyncRoutes(Run(front, self), Known(front), m.peers, m.lists, self)
  }

  predicate AllBuilt(ms: seq<Message>) {
    ms != [] ==> AllBuilt(ms[..|ms| - 1]) && Built(ms[|ms| - 1].peers, ms[|ms| - 1].lists)
  }

  predicate AlwaysExact(ms: seq<Message>, self: Key) {
    Run(ms, self).table == Wanted(Known(ms), self) && (ms != [] ==> AlwaysExact(ms[..|ms| - 1], self))
  }

  /** The last nonempty list peer `k` advertised since it joined. */
  function LastList(ms: seq<Message>, self: Key, k: Key): seq<string> {
    if ms == [] || k == self || k !in Known(ms) then []
    else if Advertised(Known(ms)[k]) != [] then Advertised(Known(ms)[k])
    else LastList(ms[..|ms| - 1], self, k)
  }

  lemma {:induction false} SyncList(
    s: Routes, known: Directory, incoming: seq<PeerInfo>, lists: Networks, self: Key, k: Key)
    requires Built(incoming, lists)
    ensures var idx := Index(incoming);
      At(SyncRoutes(s, known, incoming, lists, self).applied, k)
      == if k != self && k in known && k !in idx then []
         else if k != self && k in idx && (k !in known || Differs(known[k], idx[k])) && Advertised(idx[k]) != []
         then Advertised(idx[k])
         else At(s.applied, k)
  {
    OnceIsDistinct(incoming);
    VisitAllList(s, known, Changed(known, incoming), lists, self, k);
    VisitedIff(known, incoming, k);
    IndexKnows(incoming, k);
  }

  /** What the agent has recorded for a peer is that list. */
  lemma {:induction false} AppliedIsLastList(ms: seq<Message>, self: Key, k: Key)
    requires AllBuilt(ms)
    ensures At(Run(ms, self).applied, k) == LastList(ms, self, k)
  {
    if ms != [] {
      var front, m := ms[..|ms| - 1], ms[|ms| - 1];
      AppliedIsLastList(front, self, k);
      SyncList(Run(front, self), Known(front), m.peers, m.lists, self, k);
    }
  }

  function HadAfter(ms: seq<Message>, self: Key): Had {
    (k: Key) => LastList(ms, self, k)
  }

  lemma {:induction false} HadAgrees(ms: seq<Message>, self: Key)
    requires AllBuilt(ms)
    ensures Agrees(HadAfter(ms, self), Run(ms, self), Known(ms))
  {
    forall k
      ensures HadAfter(ms, self)(k) == if k in Known(ms) then At(Run(ms, self).applied, k) else []
    {
      AppliedIsLastList(ms, self, k);
    }
  }

  /** Visit `i` installs `r`, and no later visit takes it away. */
  predicate KeptFrom(had: Had, ps: seq<PeerInfo>, self: Key, r: string, i: nat) {
    i < |ps| && ps[i].key != self && Installs(had, ps[i], r) && NoneUninstalls(had, ps, self, r, i + 1)
  }

  predicate NoneUninstalls(had: Had, ps: seq<PeerInfo>, self: Key, r: string, from: nat) {
    forall j :: from <= j < |ps| && ps[j].key != self ==> !Uninstalls(had, ps[j], r)
  }

  /** Network `r` survives the last message: no peer that left had it, and either a visit
      installs it and no later one takes it away, or it was wanted before and no visit
      takes it away. What a peer had is the last nonempty list it advertised. */
  predicate Survives(ms: seq<Message>, self: Key, r: string)
    requires ms != []
  {
    var front, incoming := ms[..|ms| - 1], ms[|ms| - 1].peers;
    var had, ps := HadAfter(front, self), Changed(Known(front), incoming);
    && !Withdrawn(had, Known(front), incoming, self, r)
    && ((exists i :: 0 <= i < |ps| && KeptFrom(had, ps, self, r, i))
        || (r in Wanted(Known(front), self) && NoneUninstalls(had, ps, self, r, 0)))
  }

  /** A visited peer is the listed one. */
  lemma {:induction false} VisitOf(known: Directory, incoming: seq<PeerInfo>, i: nat)
    requires DistinctKeys(incoming) && i < |Changed(known, incoming)|
    ensures var p := Changed(known, incoming)[i]; p.key in Index(incoming) && Index(incoming)[p.key] == p
  {
    var p := Changed(known, incoming)[i];
    assert p in Changed(known, incoming);
    ChangedMembers(known, incoming, p);
    IndexOfDistinct(incoming, p);
  }

  /** A peer that is new, or whose list changed, is visited. */
  lemma ListChangeVisited(known: Directory, incoming: seq<PeerInfo>, k: Key) returns (i: nat)
    requires DistinctKeys(incoming) && k in Index(incoming)
    requires k in known ==> Advertised(known[k]) != Advertised(Index(incoming)[k])
    ensures i < |Changed(known, incoming)| && Changed(known, incoming)[i] == Index(incoming)[k]
    ensures Changed(known, incoming)[i].key == k
  {
    VisitedIff(known, incoming, k);
    var p :| p in Changed(known, incoming) && p.key == k;
    i :| 0 <= i < |Changed(known, incoming)| && Changed(known, incoming)[i] == p;
    VisitOf(known, incoming, i);
  }

  /** Nothing installs a network that nobody wants. */
  lemma {:induction false} UnwantedNotInstalled(known: Directory, incoming: seq<PeerInfo>, self: Key, r: string, i: nat)
    requires DistinctKeys(incoming) && i < |Changed(known, incoming)|
    requires r !in Wanted(Index(incoming), self) && !IsDefault(r)
    ensures var p := Changed(known, incoming)[i]; p.key != self ==> r !in Advertised(p)
  {
    VisitOf(known, incoming, i);
  }

  lemma WantedBy(known: Directory, self: Key, r: string) returns (k: Key)
    requires r in Wanted(known, self)
    ensures Wants(known, self, k, r)
  {
    k :| k in known && Wants(known, self, k, r);
  }

  lemma WantsIsWanted(known: Directory, self: Key, k: Key, r: string)
    requires Wants(known, self, k, r)
    ensures r in Wanted(known, self)
  {
  }

  /** The visit of a peer that stops advertising `r` takes it away. */
  lemma {:induction false} StayingTakes(
    known: Directory, incoming: seq<PeerInfo>, self: Key, had: Had, k: Key, r: string)
    requires DistinctKeys(incoming) && Wants(known, self, k, r) && had(k) == Advertised(known[k])
    requires k in Index(incoming) && r !in Advertised(Index(incoming)[k])
    ensures LastChange(had, Changed(known, incoming), self, r) >= 0
  {
    var i := ListChangeVisited(known, incoming, k);
    assert Changes(had, Changed(known, incoming)[i], self, r);
  }

  /** A network that was wanted and is no more goes with a peer that left, or with the
      visit of one that stays. */
  lemma {:induction false} UnwantedTaken(
    known: Directory, incoming: seq<PeerInfo>, self: Key, had: Had, k: Key, r: string)
    requires DistinctKeys(incoming) && Wants(known, self, k, r) && r !in Wanted(Index(incoming), self)
    requires had(k) == Advertised(known[k])
    ensures Withdrawn(had, known, incoming, self, r) || LastChange(had, Changed(known, incoming), self, r) >= 0
  {
    if k in Index(incoming) {
      if Wants(Index(incoming), self, k, r) {
        WantsIsWanted(Index(incoming), self, k, r);
      }
      StayingTakes(known, incoming, self, had, k, r);
    } else {
      assert k in Gone(known, incoming) && r in had(k);
    }
  }

  lemma UnwantedGoes(ms: seq<Message>, self: Key, r: string)
    requires ms != [] && AllBuilt(ms) && !IsDefault(r) && r !in Wanted(Known(ms), self)
    ensures var front, incoming := ms[..|ms| - 1], ms[|ms| - 1].peers;
      var had, ps := HadAfter(front, self), Changed(Known(front), incoming);
      var i := LastChange(had, ps, self, r);
      && (i >= 0 ==> !Installs(had, ps[i], r))
      && (r in Wanted(Known(front), self) ==> Withdrawn(had, Known(front), incoming, self, r) || i >= 0)
  {
    var front, incoming := ms[..|ms| - 1], ms[|ms| - 1].peers;
    var had, ps := HadAfter(front, self), Changed(Known(front), incoming);
    OnceIsDistinct(incoming);
    var i := LastChange(had, ps, self, r);
    if i >= 0 {
      UnwantedNotInstalled(Known(front), incoming, self, r, i);
    }
    if r in Wanted(Known(front), self) {
      var k := WantedBy(Known(front), self, r);
      UnwantedTaken(Known(front), incoming, self, had, k, r);
    }
  }

  /** The last change leaves a network installed exactly if it is kept from some visit. */
  lemma {:induction false} LastChangeKeeps(had: Had, ps: seq<PeerInfo>, self: Key, r: string)
    ensures var i := LastChange(had, ps, self, r);
      && (i >= 0 ==> (Installs(had, ps[i], r) <==> exists n :: 0 <= n < |ps| && KeptFrom(had, ps, self, r, n)))
      && (i < 0 ==> NoneUninstalls(had, ps, self, r, 0) && forall n :: 0 <= n < |ps| ==> !KeptFrom(had, ps, self, r, n))
  {
    var i := LastChange(had, ps, self, r);
    if i >= 0 {
      if Installs(had, ps[i], r) {
        assert KeptFrom(had, ps, self, r, i);
      } else {
        forall n | 0 <= n < |ps|
          ensures !KeptFrom(had, ps, self, r, n)
        {
          assert n <= i || !Changes(had, ps[n], self, r);
        }
      }
    }
  }

  /** After a message that meets an exact table, a network is installed exactly if it is
      wanted and survives the message. Networks may move between gateways. */
  lemma {:induction false} InstalledIff(ms: seq<Message>, self: Key, r: string)
    requires ms != [] && AllBuilt(ms)
    requires Run(ms[..|ms| - 1], self).table == Wanted(Known(ms[..|ms| - 1]), self)
    ensures r in Run(ms, self).table <==> r in Wanted(Known(ms), self) && Survives(ms, self, r)
  {
    var front, m := ms[..|ms| - 1], ms[|ms| - 1];
    var had, ps := HadAfter(front, self), Changed(Known(front), m.peers);
    HadAgrees(front, self);
    SyncTable(Run(front, self), Known(front), m.peers, m.lists, self, had, r);
    LastChangeKeeps(had, ps, self, r);
    if !IsDefault(r) && r !in Wanted(Known(ms), self) {
      UnwantedGoes(ms, self, r);
    }
  }

  /** From an exact table, a message leaves the table exact if and only if every wanted
      network survives it. */
  lemma {:induction false} MessageKeepsRoutes(ms: seq<Message>, self: Key)
    requires ms != [] && AllBuilt(ms)
    requires Run(ms[..|ms| - 1], self).table == Wanted(Known(ms[..|ms| - 1]), self)
    ensures Run(ms, self).table == Wanted(Known(ms), self)
      <==> forall r :: r in Wanted(Known(ms), self) ==> Survives(ms, self, r)
  {
    forall r
      ensures r in Run(ms, self).table <==> r in Wanted(Known(ms), self) && Survives(ms, self, r)
    {
      InstalledIff(ms, self, r);
    }
  }

  predicate AlwaysSurvives(ms: seq<Message>, self: Key) {
    ms != [] ==>
      AlwaysSurvives(ms[..|ms| - 1], self) && forall r :: r in Wanted(Known(ms), self) ==> Survives(ms, self, r)
  }

  /** The installed routes are the advertised ones after every sync of a run if and only
      if every wanted network survives every message. */
  lemma {:induction false} RoutesFollowPeers(ms: seq<Message>, self: Key)
    requires AllBuilt(ms)
    ensures AlwaysExact(ms, self) <==> AlwaysSurvives(ms, self)
  {
    if ms != [] {
      RoutesFollowPeers(ms[..|ms| - 1], self);
      if AlwaysExact(ms[..|ms| - 1], self) {
        MessageKeepsRoutes(ms, self);
      }
    }
  }

  // ---- One gateway for each network ----------------------------------------------

  /** `r` stands behind its one gateway. Any number of peers may offer a default route. */
  predicate OwnedBy(owner: string -> Key, r: string, k: Key) {
    IsDefault(r) || owner(r) == k
  }

  predicate OwnedIndex(idx: Directory, owner: string -> Key) {
    forall k, r :: k in idx && r in Advertised(idx[k]) ==> OwnedBy(owner, r, k)
  }

  /** Messages as the server builds them, each network behind one gateway for good. */
  predicate Served(ms: seq<Message>, owner: string -> Key) {
    ms != [] ==>
      var front, m := ms[..|ms| - 1], ms[|ms| - 1];
      Served(front, owner) && Built(m.peers, m.lists) && OwnedIndex(Index(m.peers), owner)
  }

  lemma {:induction false} ServedBuilt(ms: seq<Message>, owner: string -> Key)
    requires Served(ms, owner)
    ensures AllBuilt(ms) && OwnedIndex(Known(ms), owner)
  {
    if ms != [] {
      ServedBuilt(ms[..|ms| - 1], owner);
    }
  }

  lemma {:induction false} LastListOwned(ms: seq<Message>, self: Key, owner: string -> Key, k: Key, r: string)
    requires Served(ms, owner) && r in LastList(ms, self, k)
    ensures OwnedBy(owner, r, k)
  {
    ServedBuilt(ms, owner);
    if Advertised(Known(ms)[k]) == [] {
      LastListOwned(ms[..|ms| - 1], self, owner, k, r);
    }
  }

  lemma WantedAt(known: Directory, self: Key, owner: string -> Key, r: string)
    requires OwnedIndex(known, owner)
    ensures r in Wanted(known, self)
      <==> owner(r) in known && owner(r) != self && r in Advertised(known[owner(r)]) && !IsDefault(r)
  {
    forall k | k in known && r in Advertised(known[k]) && !IsDefault(r)
      ensures owner(r) == k
    {
      assert OwnedBy(owner, r, k);
    }
  }

  /** With the last message peer `k`, which advertised nothing, advertises again a network
      from the last list it had. */
  predicate Again(ms: seq<Message>, self: Key, k: Key, r: string)
    requires ms != []
  {
    var front := ms[..|ms| - 1];
    && k in Known(front) && k in Known(ms) && Advertised(Known(front)[k]) == []
    && r in LastList(front, self, k) && r in Advertised(Known(ms)[k]) && !IsDefault(r)
  }

  /** Nothing takes a wanted network away when it has one gateway. */
  lemma OwnedStays(ms: seq<Message>, self: Key, owner: string -> Key, r: string)
    requires ms != [] && Served(ms, owner) && r in Wanted(Known(ms), self)
    ensures var front, incoming := ms[..|ms| - 1], ms[|ms| - 1].peers;
      var had, ps := HadAfter(front, self), Changed(Known(front), incoming);
      && owner(r) in Known(ms) && owner(r) != self && r in Advertised(Known(ms)[owner(r)]) && !IsDefault(r)
      && !Withdrawn(had, Known(front), incoming, self, r) && NoneUninstalls(had, ps, self, r, 0)
  {
    var front, incoming := ms[..|ms| - 1], ms[|ms| - 1].peers;
    var had, ps, idx := HadAfter(front, self), Changed(Known(front), incoming), Index(incoming);
    OnceIsDistinct(incoming);
    WantedAt(idx, self, owner, r);
    if Withdrawn(had, Known(front), incoming, self, r) {
      var j :| j in Gone(Known(front), incoming) && j != self && r in had(j);
      LastListOwned(front, self, owner, j, r);
    }
    forall i | 0 <= i < |ps| && ps[i].key != self
      ensures !Uninstalls(had, ps[i], r)
    {
      if Uninstalls(had, ps[i], r) {
        LastListOwned(front, self, owner, ps[i].key, r);
        VisitOf(Known(front), incoming, i);
      }
    }
  }

  /** Only the gateway can install its network. */
  lemma {:induction false} OwnedInstalls(ms: seq<Message>, self: Key, owner: string -> Key, r: string, p: PeerInfo)
    requires ms != [] && Served(ms, owner) && !IsDefault(r)
    requires p in Changed(Known(ms[..|ms| - 1]), ms[|ms| - 1].peers) && r in Advertised(p)
    ensures p.key == owner(r)
  {
    var incoming := ms[|ms| - 1].peers;
    OnceIsDistinct(incoming);
    ChangedMembers(Known(ms[..|ms| - 1]), incoming, p);
    IndexOfDistinct(incoming, p);
    assert OwnedBy(owner, r, p.key);
  }

  /** A gateway that does not advertise again installs its network, or had it installed. */
  lemma {:induction false} NotAgainSurvives(ms: seq<Message>, self: Key, owner: string -> Key, r: string)
    requires ms != [] && Served(ms, owner) && r in Wanted(Known(ms), self) && !Again(ms, self, owner(r), r)
    ensures Survives(ms, self, r)
  {
    var front, incoming := ms[..|ms| - 1], ms[|ms| - 1].peers;
    var had, ps, k := HadAfter(front, self), Changed(Known(front), incoming), owner(r);
    OwnedStays(ms, self, owner, r);
    OnceIsDistinct(incoming);
    if k in Known(front) && r in Advertised(Known(front)[k]) {
      assert Wants(Known(front), self, k, r);
    } else {
      var i := ListChangeVisited(Known(front), incoming, k);
      assert KeptFrom(had, ps, self, r, i);
    }
  }

  lemma {:induction false} AgainIsLost(ms: seq<Message>, self: Key, owner: string -> Key, r: string)
    requires ms != [] && Served(ms, owner) && Again(ms, self, owner(r), r)
    ensures !Survives(ms, self, r)
  {
    var front, incoming := ms[..|ms| - 1], ms[|ms| - 1].peers;
    var had, ps, k := HadAfter(front, self), Changed(Known(front), incoming), owner(r);
    ServedBuilt(front, owner);
    WantedAt(Known(front), self, owner, r);
    forall i | 0 <= i < |ps|
      ensures !KeptFrom(had, ps, self, r, i)
    {
      if Installs(had, ps[i], r) {
        OwnedInstalls(ms, self, owner, r, ps[i]);
      }
    }
  }

  predicate NeverAgain(ms: seq<Message>, self: Key, owner: string -> Key) {
    ms != [] ==>
      && NeverAgain(ms[..|ms| - 1], self, owner)
      && forall r :: r in Wanted(Known(ms), self) ==> !Again(ms, self, owner(r), r)
  }

  lemma {:induction false} SurvivesUnlessAgain(ms: seq<Message>, self: Key, owner: string -> Key)
    requires Served(ms, owner)
    ensures AlwaysSurvives(ms, self) <==> NeverAgain(ms, self, owner)
  {
    if ms != [] {
      SurvivesUnlessAgain(ms[..|ms| - 1], self, owner);
      forall r | r in Wanted(Known(ms), self)
        ensures Survives(ms, self, r) <==> !Again(ms, self, owner(r), r)
      {
        if Again(ms, self, owner(r), r) {
          AgainIsLost(ms, self, owner, r);
        } else {
          NotAgainSurvives(ms, self, owner, r);
        }
      }
    }
  }

  /** When each network has one gateway for good, the installed routes are the advertised
      ones after every sync if and only if no peer that advertised nothing advertises
      again a network from the last list it had. */
  lemma {:induction false} OwnedRoutesFollowPeers(ms: seq<Message>, self: Key, owner: string -> Key)
    requires Served(ms, owner)
    ensures AlwaysExact(ms, self) <==> NeverAgain(ms, self, owner)
  {
    ServedBuilt(ms, owner);
    RoutesFollowPeers(ms, self);
    SurvivesUnlessAgain(ms, self, owner);
  }

  /** No sync empties a nonempty list of a peer that stays. */
  predicate NeverEmptied(ms: seq<Message>, self: Key) {
    ms != [] ==>
      NeverEmptied(ms[..|ms| - 1], self) && !Empties(Known(ms[..|ms| - 1]), Known(ms), self)
  }

  predicate Empties(a: Directory, b: Directory, self: Key) {
    exists k :: k in a && k in b && k != self && Advertised(a[k]) != [] && Advertised(b[k]) == []
  }

  lemma {:induction false} LastListIsCurrent(ms: seq<Message>, self: Key, k: Key)
    requires NeverEmptied(ms, self) && k in Known(ms) && k != self
    ensures LastList(ms, self, k) == Advertised(Known(ms)[k])
  {
    var front := ms[..|ms| - 1];
    if Advertised(Known(ms)[k]) == [] && k in Known(front) {
      LastListIsCurrent(front, self, k);
    }
  }

  lemma {:induction false} NotAgain(ms: seq<Message>, self: Key, owner: string -> Key)
    requires NeverEmptied(ms, self)
    ensures NeverAgain(ms, self, owner)
  {
    if ms != [] {
      var front := ms[..|ms| - 1];
      NotAgain(front, self, owner);
      forall r | r in Wanted(Known(ms), self)
        ensures !Again(ms, self, owner(r), r)
      {
        if owner(r) in Known(front) && owner(r) != self {
          LastListIsCurrent(front, self, owner(r));
        }
      }
    }
  }

  /** In a run where no update empties a nonempty list, the installed routes are the
      advertised ones after every sync. */
  lemma {:induction false} RoutesExactUnlessEmptied(ms: seq<Message>, self: Key, owner: string -> Key)
    requires Served(ms, owner) && NeverEmptied(ms, self)
    ensures AlwaysExact(ms, self)
  {
    NotAgain(ms, self, owner);
    OwnedRoutesFollowPeers(ms, self, owner);
  }

  // ---- Runs that go wrong --------------------------------------------------------

  /** The first message always leaves the table exact. */
  lemma {:induction false} FirstMessageExact(m: Message, self: Key)
    requires Built(m.peers, m.lists)
    ensures AlwaysExact([m], self)
  {
    assert [m][..|[m]| - 1] == [];
    forall r | r in Wanted(Known([m]), self)
      ensures Survives([m], self, r)
    {
      FirstMessageSurvives(m, self, r);
    }
    MessageKeepsRoutes([m], self);
  }

  lemma FirstMessageSurvives(m: Message, self: Key, r: string)
    requires Built(m.peers, m.lists) && r in Wanted(Known([m]), self)
    ensures Survives([m], self, r)
  {
    assert [m][..|[m]| - 1] == [];
    var had := HadAfter([], self);
    OnceIsDistinct(m.peers);
    var i := FirstVisitInstalls(Known([]), m.peers, self, had, r);
    assert KeptFrom(had, Changed(Known([]), m.peers), self, r, i);
  }

  lemma FirstVisitInstalls(known: Directory, incoming: seq<PeerInfo>, self: Key, had: Had, r: string) returns (i: nat)
    requires known == map[] && DistinctKeys(incoming) && r in Wanted(Index(incoming), self) && forall k :: had(k) == []
    ensures var ps := Changed(known, incoming); i < |ps| && KeptFrom(had, ps, self, r, i)
  {
    var k := WantedBy(Index(incoming), self, r);
    i := ListChangeVisited(known, incoming, k);
    assert Installs(had, Changed(known, incoming)[i], r);
  }

  function Advertiser(k: Key, host: string, networks: seq<string>): PeerInfo {
    PeerInfo(k, host, "", [host] + networks, "")
  }

  function Solo(k: Key, host: string, networks: seq<string>): Message {
    Message([Advertiser(k, host, networks)], map[k := networks])
  }

  lemma SoloBuilt(k: Key, host: string, networks: seq<string>)
    ensures var m := Solo(k, host, networks);
      && Built(m.peers, m.lists) && Index(m.peers) == map[k := m.peers[0]] && Advertised(m.peers[0]) == networks
  {
    var m := Solo(k, host, networks);
    SingleIndex(m.peers[0]);
    assert m.peers[0].allowed[1..] == networks;
  }

  lemma {:induction false} ServedOnce(ms: seq<Message>, m: Message, owner: string -> Key)
    requires Served(ms, owner) && Built(m.peers, m.lists) && OwnedIndex(Index(m.peers), owner)
    ensures Served(ms + [m], owner)
  {
    assert (ms + [m])[..|ms|] == ms;
  }

  /** A message in which nobody advertises anything leaves an exact table exact. */
  lemma {:induction false} SilentMessageExact(ms: seq<Message>, self: Key)
    requires ms != [] && AllBuilt(ms) && AlwaysExact(ms[..|ms| - 1], self)
    requires forall k :: k in Known(ms) ==> Advertised(Known(ms)[k]) == []
    ensures AlwaysExact(ms, self)
  {
    assert Wanted(Known(ms), self) == {};
    MessageKeepsRoutes(ms, self);
  }

  lemma KnownSnoc(ms: seq<Message>, m: Message)
    ensures (ms + [m])[..|ms + [m]| - 1] == ms && Known(ms + [m]) == Index(m.peers)
  {
  }

  /** A peer that empties its list keeps its last one. */
  lemma {:induction false} LastListStays(ms: seq<Message>, self: Key, k: Key, host: string, r: string)
    requires k != self && LastList(ms, self, k) == [r]
    ensures LastList(ms + [Solo(k, host, [])], self, k) == [r]
  {
    SoloBuilt(k, host, []);
    KnownSnoc(ms, Solo(k, host, []));
  }

  lemma {:induction false} SoloAgain(ms: seq<Message>, self: Key, k: Key, host: string, r: string)
    requires k != self && !IsDefault(r) && ms != [] && Known(ms) == Index(Solo(k, host, []).peers)
    requires LastList(ms, self, k) == [r]
    ensures Again(ms + [Solo(k, host, [r])], self, k, r) && r in Wanted(Known(ms + [Solo(k, host, [r])]), self)
  {
    SoloBuilt(k, host, []);
    SoloBuilt(k, host, [r]);
    KnownSnoc(ms, Solo(k, host, [r]));
    WantsIsWanted(Known(ms + [Solo(k, host, [r])]), self, k, r);
  }

  /** After advertising one network and then none, the table is exact and the list kept. */
  lemma {:induction false} UpThenDown(k: Key, self: Key, host: string, r: string)
    requires k != self && !IsDefault(r)
    ensures var ms := [Solo(k, host, [r])] + [Solo(k, host, [])];
      && Served(ms, (x: string) => k) && AlwaysExact(ms, self)
      && Known(ms) == Index(Solo(k, host, []).peers) && LastList(ms, self, k) == [r]
  {
    var up, down, owner := Solo(k, host, [r]), Solo(k, host, []), (x: string) => k;
    SoloBuilt(k, host, [r]);
    SoloBuilt(k, host, []);
    KnownSnoc([], up);
    KnownSnoc([up], down);
    assert [] + [up] == [up];
    ServedOnce([], up, owner);
    ServedOnce([up], down, owner);
    ServedBuilt([up] + [down], owner);
    FirstMessageExact(up, self);
    SilentMessageExact([up] + [down], self);
    LastListStays([up], self, k, host, r);
  }

  /** A network advertised, withdrawn as the last of its list, and advertised again is not
      installed. */
  lemma {:induction false} EmptyThenReadvertise(k: Key, self: Key, host: string, r: string)
    requires k != self && !IsDefault(r)
    ensures var ms := [Solo(k, host, [r]), Solo(k, host, []), Solo(k, host, [r])];
      r in Wanted(Known(ms), self) && r !in Run(ms, self).table
  {
    var up, down, owner := Solo(k, host, [r]), Solo(k, host, []), (x: string) => k;
    var ms := [up] + [down];
    UpThenDown(k, self, host, r);
    SoloBuilt(k, host, [r]);
    ServedOnce(ms, up, owner);
    ServedBuilt(ms + [up], owner);
    SoloAgain(ms, self, k, host, r);
    KnownSnoc(ms, up);
    AgainIsLost(ms + [up], self, owner, r);
    InstalledIff(ms + [up], self, r);
    assert ms + [up] == [up, down, up];
  }

  /** The list of two peers, `a` first. */
  function Duo(a: PeerInfo, b: PeerInfo): Message {
    Message([a, b], map[a.key := Advertised(a), b.key := Advertised(b)])
  }

  lemma DuoBuilt(a: PeerInfo, b: PeerInfo)
    requires a.key != b.key
    ensures Built(Duo(a, b).peers, Duo(a, b).lists) && Index([a, b]) == map[a.key := a, b.key := b]
  {
    assert [a, b][..|[a, b]| - 1] == [a];
    SingleIndex(a);
  }

  /** `a` takes over the network of `b`, and is visited first. */
  lemma LaterVisitTakes(had: Had, a: PeerInfo, b: PeerInfo, self: Key, r: string)
    requires b.key != self && Uninstalls(had, b, r)
    ensures forall i :: 0 <= i < 2 ==> !KeptFrom(had, [a, b], self, r, i)
    ensures !NoneUninstalls(had, [a, b], self, r, 0)
  {
    assert [a, b][1] == b;
  }

  /** A network that passes to a gateway listed before the old one is not installed: the
      old gateway's visit comes later and takes it away. */
  lemma {:induction false} MovedNetworkLost(a: Key, b: Key, self: Key, host: string, r: string)
    requires a != b && a != self && b != self && !IsDefault(r)
    ensures var m1 := Duo(Advertiser(a, host, []), Advertiser(b, host, [r]));
      var m2 := Duo(Advertiser(a, host, [r]), Advertiser(b, host, []));
      r in Wanted(Known([m1, m2]), self) && r !in Run([m1, m2], self).table
  {
    var a1, b1, a2, b2 :=
      Advertiser(a, host, []), Advertiser(b, host, [r]), Advertiser(a, host, [r]), Advertiser(b, host, []);
    var m1, m2 := Duo(a1, b1), Duo(a2, b2);
    AdvertiserAdvertises(a, host, []);
    AdvertiserAdvertises(b, host, [r]);
    AdvertiserAdvertises(a, host, [r]);
    AdvertiserAdvertises(b, host, []);
    DuoBuilt(a1, b1);
    DuoBuilt(a2, b2);
    TwoMessages(m1, m2);
    FirstMessageExact(m1, self);
    InstalledIff([m1, m2], self, r);
    assert Wants(Known([m1, m2]), self, a, r);
    MoveVisits(a2, b2, Known([m1]));
    assert HadAfter([m1], self)(b) == [r];
    LaterVisitTakes(HadAfter([m1], self), a2, b2, self, r);
  }

  lemma AdvertiserAdvertises(k: Key, host: string, networks: seq<string>)
    ensures Advertised(Advertiser(k, host, networks)) == networks
  {
    assert ([host] + networks)[1..] == networks;
  }

  lemma TwoMessages(m: Message, n: Message)
    requires Built(m.peers, m.lists) && Built(n.peers, n.lists)
    ensures [m, n][..|[m, n]| - 1] == [m] && AllBuilt([m]) && AllBuilt([m, n])
    ensures Known([m]) == Index(m.peers) && Known([m, n]) == Index(n.peers)
  {
    assert [m][..|[m]| - 1] == [];
  }

  lemma {:induction false} ChangedSnoc(known: Directory, ps: seq<PeerInfo>, p: PeerInfo)
    requires p.key in known && Differs(known[p.key], p)
    ensures Added(known, ps + [p]) == Added(known, ps) && Updated(known, ps + [p]) == Updated(known, ps) + [p]
  {
    assert (ps + [p])[..|ps + [p]| - 1] == ps;
  }

  lemma MoveVisits(a: PeerInfo, b: PeerInfo, known: Directory)
    requires a.key in known && b.key in known && Differs(known[a.key], a) && Differs(known[b.key], b)
    ensures Changed(known, [a, b]) == [a, b]
  {
    ChangedSnoc(known, [], a);
    ChangedSnoc(known, [] + [a], b);
    assert [] + [a] + [b] == [a, b];
  }

  /** Two peers may both offer a default route: such a message is served. */
  lemma TwoExitNodesServed(j: Key, k: Key, host: string)
    requires j != k
    ensures Served([Duo(Advertiser(j, host, [DEFAULT_ROUTE]), Advertiser(k, host, [DEFAULT_ROUTE]))], (x: string) => j)
  {
    var a, b, owner := Advertiser(j, host, [DEFAULT_ROUTE]), Advertiser(k, host, [DEFAULT_ROUTE]), (x: string) => j;
    DuoBuilt(a, b);
    assert Advertised(a) == [DEFAULT_ROUTE] && Advertised(b) == [DEFAULT_ROUTE];
    ServedOnce([], Duo(a, b), owner);
    assert [] + [Duo(a, b)] == [Duo(a, b)];
  }
}
