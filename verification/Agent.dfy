/** The agent's reconciliation of its links, relay connections and DNS records with each
    peer list the management server sends. */
module Agent {
  import opened Domain

  /** A peer as a sync message carries it. */
  datatype PeerInfo = PeerInfo(key: Key, ip: string, hostname: string, allowed: seq<string>, dnsLabel: string)

  // ---- Diff ----------------------------------------------------------------------

  /** The list by key; the last entry of a key wins. */
  function Index(incoming: seq<PeerInfo>): map<Key, PeerInfo> {
    if incoming == [] then map[]
    else
      var p := incoming[|incoming| - 1];
      Index(incoming[..|incoming| - 1])[p.key := p]
  }

  predicate Differs(a: PeerInfo, b: PeerInfo) {
    a.ip != b.ip || a.hostname != b.hostname || a.allowed != b.allowed
  }

  function Added(known: map<Key, PeerInfo>, incoming: seq<PeerInfo>): seq<PeerInfo> {
    if incoming == [] then []
    else
      var p := incoming[|incoming| - 1];
      Added(known, incoming[..|incoming| - 1]) + if p.key in known then [] else [p]
  }

  function Updated(known: map<Key, PeerInfo>, incoming: seq<PeerInfo>): seq<PeerInfo> {
    if incoming == [] then []
    else
      var p := incoming[|incoming| - 1];
      Updated(known, incoming[..|incoming| - 1]) + if p.key in known && Differs(known[p.key], p) then [p] else []
  }

  /** The keys that left. */
  function Gone(known: map<Key, PeerInfo>, incoming: seq<PeerInfo>): set<Key> {
    known.Keys - Index(incoming).Keys
  }

  /** `removed` lists the records of the keys that left. */
  predicate ListsGone(known: map<Key, PeerInfo>, incoming: seq<PeerInfo>, removed: seq<PeerInfo>) {
    && (forall p :: p in removed ==> exists k :: k in Gone(known, incoming) && p == known[k])
    && (forall k :: k in Gone(known, incoming) ==> known[k] in removed)
  }

  method AllowedIPsEqual(a: seq<string>, b: seq<string>) returns (equal: bool)
    ensures equal <==> a == b
  {
    if |a| != |b| {
      return false;
    }
    for i := 0 to |a|
      invariant a[..i] == b[..i]
    {
      if a[i] != b[i] {
        return false;
      }
    }
    assert a == a[..|a|] && b == b[..|a|];
    return true;
  }

  class Manager {
    var peers: map<Key, PeerInfo>

    constructor ()
      ensures peers == map[]
    {
      peers := map[];
    }

    method Diff(incoming: seq<PeerInfo>)
      returns (added: seq<PeerInfo>, updated: seq<(PeerInfo, PeerInfo)>, removed: seq<PeerInfo>)
      modifies this
      ensures peers == Index(incoming)
      ensures added == Added(old(peers), incoming)
      ensures Pairs(old(peers), Updated(old(peers), incoming), updated)
      ensures ListsGone(old(peers), incoming, removed)
    {
      var incomingMap := map[];
      for i := 0 to |incoming|
        invariant peers == old(peers) && incomingMap == Index(incoming[..i])
      {
        assert incoming[..i + 1][..i] == incoming[..i];
        incomingMap := incomingMap[incoming[i].key := incoming[i]];
      }
      assert incoming[..|incoming|] == incoming;
      added, updated := AddedAndUpdated(incoming);
      removed := [];
      var todo := peers.Keys;
      while todo != {}
        invariant peers == old(peers) && todo <= peers.Keys
        invariant forall p :: p in removed ==> exists k :: k in Gone(peers, incoming) && p == peers[k]
        invariant forall k :: k in Gone(peers, incoming) && k !in todo ==> peers[k] in removed
      {
        var key :| key in todo;
        if key !in incomingMap {
          removed := removed + [peers[key]];
        }
        todo := todo - {key};
      }
      peers := incomingMap;
    }

    /** The part of the diff that walks the incoming list. */
    method AddedAndUpdated(incoming: seq<PeerInfo>)
      returns (added: seq<PeerInfo>, updated: seq<(PeerInfo, PeerInfo)>)
      ensures added == Added(peers, incoming) && Pairs(peers, Updated(peers, incoming), updated)
    {
      added, updated := [], [];
      for i := 0 to |incoming|
        invariant added == Added(peers, incoming[..i]) && Pairs(peers, Updated(peers, incoming[..i]), updated)
      {
        assert incoming[..i + 1][..i] == incoming[..i];
        var p := incoming[i];
        if p.key !in peers {
          added := added + [p];
        } else {
          var sameAllowed := AllowedIPsEqual(peers[p.key].allowed, p.allowed);
          if peers[p.key].ip != p.ip || peers[p.key].hostname != p.hostname || !sameAllowed {
            updated := updated + [(peers[p.key], p)];
          }
        }
      }
      assert incoming[..|incoming|] == incoming;
    }
  }

  /** Each update pairs the old record of a key with the new one, in order. */
  predicate Pairs(known: map<Key, PeerInfo>, ps: seq<PeerInfo>, updated: seq<(PeerInfo, PeerInfo)>) {
    |ps| == |updated| && forall i :: 0 <= i < |ps| ==> IsUpdate(known, ps[i], updated[i])
  }

  /** An update pairs the old record of a key with the new one. */
  predicate IsUpdate(known: map<Key, PeerInfo>, p: PeerInfo, u: (PeerInfo, PeerInfo)) {
    p.key in known && u == (known[p.key], p)
  }

  lemma {:induction false} IndexKnows(incoming: seq<PeerInfo>, k: Key)
    ensures k in Index(incoming) <==> exists p :: p in incoming && p.key == k
    ensures k in Index(incoming) ==> Index(incoming)[k].key == k && Index(incoming)[k] in incoming
  {
    if incoming != [] {
      var front, p := incoming[..|incoming| - 1], incoming[|incoming| - 1];
      IndexKnows(front, k);
      assert forall q :: q in incoming <==> q in front || q == p;
    }
  }

  predicate DistinctKeys(incoming: seq<PeerInfo>) {
    forall p, q :: p in incoming && q in incoming && p.key == q.key ==> p == q
  }

  lemma {:induction false} ChangedMembers(known: map<Key, PeerInfo>, incoming: seq<PeerInfo>, p: PeerInfo)
    ensures p in Added(known, incoming) <==> p in incoming && p.key !in known
    ensures p in Updated(known, incoming) <==> p in incoming && p.key in known && Differs(known[p.key], p)
  {
    if incoming != [] {
      var front, last := incoming[..|incoming| - 1], incoming[|incoming| - 1];
      ChangedMembers(known, front, p);
      assert p in incoming <==> p in front || p == last;
    }
  }

  /** The records a sync visits: first the added ones, then the updated ones. */
  function Changed(known: map<Key, PeerInfo>, incoming: seq<PeerInfo>): seq<PeerInfo> {
    Added(known, incoming) + Updated(known, incoming)
  }

  // ---- Relay plumbing ------------------------------------------------------------

  const ENDPOINTS: nat := 0x1_0000

  /** `made` counts the relay connections ever made; the n-th has the loopback address
      127.127.x.y with x, y the low two bytes of n, which the wrap of a 32-bit counter
      leaves as they are. */
  datatype Relays = Relays(endpoints: map<Key, nat>, links: map<Key, nat>, conns: map<Key, nat>, made: nat)

  function EnsureRelayLink(r: Relays, k: Key): Relays {
    if k in r.endpoints && k in r.links then r
    else
      var n := r.made + 1;
      var endpoint := n % ENDPOINTS;
      Relays(r.endpoints[k := endpoint], r.links[k := endpoint], r.conns[k := n], n)
  }

  function VisitRelays(r: Relays, ps: seq<PeerInfo>, self: Key): Relays {
    if ps == [] then r
    else
      var q := VisitRelays(r, ps[..|ps| - 1], self);
      var p := ps[|ps| - 1];
      if p.key == self then q else EnsureRelayLink(q, p.key)
  }

  function Forget(r: Relays, gone: set<Key>): Relays {
    Relays(r.endpoints - gone, r.links - gone, r.conns - gone, r.made)
  }

  // ---- DNS records ---------------------------------------------------------------

  function Fqdn(host: string): string {
    Lower(host + ".blinex") + "."
  }

  /** A renamed device loses its old name before it gets its new one. */
  function DnsVisit(dns: map<string, string>, known: map<Key, PeerInfo>, p: PeerInfo): map<string, string> {
    var kept := if Renamed(known, p) then dns - {Fqdn(known[p.key].dnsLabel)} else dns;
    kept[Fqdn(p.dnsLabel) := p.ip]
  }

  predicate Renamed(known: map<Key, PeerInfo>, p: PeerInfo) {
    p.key in known && known[p.key].dnsLabel != p.dnsLabel
  }

  function VisitDns(dns: map<string, string>, known: map<Key, PeerInfo>, ps: seq<PeerInfo>, self: Key): map<string, string> {
    if ps == [] then dns
    else
      var d := VisitDns(dns, known, ps[..|ps| - 1], self);
      var p := ps[|ps| - 1];
      if p.key == self then d else DnsVisit(d, known, p)
  }

  /** The names the records of some keys go by. */
  function Names(known: map<Key, PeerInfo>, keys: set<Key>): set<string> {
    set k | k in keys && k in known :: Fqdn(known[k].dnsLabel)
  }

  // ---- One sync ------------------------------------------------------------------

  datatype State = State(known: map<Key, PeerInfo>, relays: Relays, dns: map<string, string>)

  function Start(): State {
    State(map[], Relays(map[], map[], map[], 0), map[])
  }

  function Sync(s: State, incoming: seq<PeerInfo>, self: Key): State {
    var ps := Changed(s.known, incoming);
    var gone := Gone(s.known, incoming) - {self};
    State(
      Index(incoming),
      Forget(VisitRelays(s.relays, ps, self), gone),
      VisitDns(s.dns, s.known, ps, self) - Names(s.known, gone))
  }

  function Run(syncs: seq<seq<PeerInfo>>, self: Key): State {
    if syncs == [] then Start() else Sync(Run(syncs[..|syncs| - 1], self), syncs[|syncs| - 1], self)
  }

  class Engine {
    const self: Key
    const manager: Manager
    var endpoints: map<Key, nat>
    var links: map<Key, nat>
    var conns: map<Key, nat>
    var relayCounter: nat
    var records: map<string, string>

    constructor (self: Key)
      ensures this.self == self && fresh(manager) && Value() == Start()
    {
      this.self := self;
      endpoints, links, conns, relayCounter, records := map[], map[], map[], 0, map[];
      manager := new Manager();
    }

    function Plumbing(): Relays
      reads this
    {
      Relays(endpoints, links, conns, relayCounter)
    }

    function Value(): State
      reads this, manager
    {
      State(manager.peers, Plumbing(), records)
    }

    method Ensure(k: Key)
      modifies this`endpoints, this`links, this`conns, this`relayCounter
      ensures Plumbing() == EnsureRelayLink(old(Plumbing()), k)
    {
      if k in endpoints && k in links {
        return;
      }
      relayCounter := relayCounter + 1;
      var endpoint := relayCounter % ENDPOINTS;
      conns := conns[k := relayCounter];
      endpoints := endpoints[k := endpoint];
      links := links[k := endpoint];
    }

    method ApplyAdded(ghost known: map<Key, PeerInfo>, added: seq<PeerInfo>)
      requires forall p :: p in added ==> p.key !in known
      modifies this
      ensures Plumbing() == VisitRelays(old(Plumbing()), added, self)
      ensures records == VisitDns(old(records), known, added, self)
    {
      for i := 0 to |added|
        invariant Plumbing() == VisitRelays(old(Plumbing()), added[..i], self)
        invariant records == VisitDns(old(records), known, added[..i], self)
      {
        assert added[..i + 1][..i] == added[..i];
        var p := added[i];
        if p.key != self {
          records := records[Fqdn(p.dnsLabel) := p.ip];
          Ensure(p.key);
        }
      }
      assert added[..|added|] == added;
    }

    method ApplyUpdated(ghost known: map<Key, PeerInfo>, ghost ps: seq<PeerInfo>, updated: seq<(PeerInfo, PeerInfo)>)
      requires Pairs(known, ps, updated)
      modifies this
      ensures Plumbing() == VisitRelays(old(Plumbing()), ps, self)
      ensures records == VisitDns(old(records), known, ps, self)
    {
      for i := 0 to |updated|
        invariant Plumbing() == VisitRelays(old(Plumbing()), ps[..i], self)
        invariant records == VisitDns(old(records), known, ps[..i], self)
      {
        assert ps[..i + 1][..i] == ps[..i];
        assert IsUpdate(known, ps[i], updated[i]);
        var (before, p) := updated[i];
        if p.key != self {
          if before.dnsLabel != p.dnsLabel {
            records := records - {Fqdn(before.dnsLabel)};
          }
          records := records[Fqdn(p.dnsLabel) := p.ip];
          Ensure(p.key);
        }
      }
      assert ps[..|updated|] == ps;
    }

    method Remove(p: PeerInfo)
      modifies this
      ensures Plumbing() == Forget(old(Plumbing()), {p.key}) && records == old(records) - {Fqdn(p.dnsLabel)}
    {
      records := records - {Fqdn(p.dnsLabel)};
      links := links - {p.key};
      endpoints := endpoints - {p.key};
      conns := conns - {p.key};
    }

    method ApplyRemoved(removed: seq<PeerInfo>)
      modifies this
      ensures Plumbing() == Forget(old(Plumbing()), KeysBut(removed, self))
      ensures records == old(records) - NamesBut(removed, self)
    {
      for i := 0 to |removed|
        invariant Plumbing() == Forget(old(Plumbing()), KeysBut(removed[..i], self))
        invariant records == old(records) - NamesBut(removed[..i], self)
      {
        var p := removed[i];
        assert removed[..i + 1] == removed[..i] + [p];
        ButSnoc(removed[..i], p, self);
        if p.key != self {
          ForgetTwice(old(Plumbing()), KeysBut(removed[..i], self), p.key);
          MinusTwice(old(records), NamesBut(removed[..i], self), {Fqdn(p.dnsLabel)});
          Remove(p);
        }
      }
      assert removed[..|removed|] == removed;
    }

    method ApplySync(incoming: seq<PeerInfo>)
      requires Keyed(manager.peers)
      modifies this, manager
      ensures Value() == Sync(old(Value()), incoming, self)
      ensures Keyed(manager.peers)
    {
      ghost var known := manager.peers;
      var added, updated, removed := manager.Diff(incoming);
      forall p | p in added
        ensures p.key !in known
      {
        ChangedMembers(known, incoming, p);
      }
      ApplyAdded(known, added);
      ApplyUpdated(known, Updated(known, incoming), updated);
      VisitConcat(old(Plumbing()), old(records), known, added, Updated(known, incoming), self);
      ApplyRemoved(removed);
      RemovedKeys(known, incoming, removed, self);
      forall k | k in manager.peers
        ensures manager.peers[k].key == k
      {
        IndexKnows(incoming, k);
      }
    }
  }

  predicate Keyed(known: map<Key, PeerInfo>) {
    forall k :: k in known ==> known[k].key == k
  }

  function KeysBut(ps: seq<PeerInfo>, self: Key): set<Key> {
    set p | p in ps && p.key != self :: p.key
  }

  function NamesBut(ps: seq<PeerInfo>, self: Key): set<string> {
    set p | p in ps && p.key != self :: Fqdn(p.dnsLabel)
  }

  lemma MinusTwice<V>(m: map<string, V>, a: set<string>, b: set<string>)
    ensures m - a - b == m - (a + b)
  {
  }

  lemma ForgetTwice(r: Relays, gone: set<Key>, k: Key)
    ensures Forget(Forget(r, gone), {k}) == Forget(r, gone + {k})
  {
    MinusTwice(r.endpoints, gone, {k});
    MinusTwice(r.links, gone, {k});
    MinusTwice(r.conns, gone, {k});
  }

  lemma ButSnoc(ps: seq<PeerInfo>, p: PeerInfo, self: Key)
    ensures KeysBut(ps + [p], self) == KeysBut(ps, self) + if p.key == self then {} else {p.key}
    ensures NamesBut(ps + [p], self) == NamesBut(ps, self) + if p.key == self then {} else {Fqdn(p.dnsLabel)}
  {
  }

  lemma RemovedKeys(known: map<Key, PeerInfo>, incoming: seq<PeerInfo>, removed: seq<PeerInfo>, self: Key)
    requires Keyed(known) && ListsGone(known, incoming, removed)
    ensures KeysBut(removed, self) == Gone(known, incoming) - {self}
    ensures NamesBut(removed, self) == Names(known, Gone(known, incoming) - {self})
  {
  }

  lemma {:induction false} VisitConcat(
    r: Relays, dns: map<string, string>, known: map<Key, PeerInfo>, a: seq<PeerInfo>, b: seq<PeerInfo>, self: Key)
    ensures VisitRelays(r, a + b, self) == VisitRelays(VisitRelays(r, a, self), b, self)
    ensures VisitDns(dns, known, a + b, self) == VisitDns(VisitDns(dns, known, a, self), known, b, self)
  {
    if b == [] {
      assert a + b == a;
    } else {
      VisitConcat(r, dns, known, a, b[..|b| - 1], self);
      ConcatFront(a, b);
    }
  }

  // ---- Links and endpoints over every run ----------------------------------------

  /** Connection `k`: its number is one handed out, and its endpoint follows from it. */
  predicate ConnOk(r: Relays, k: Key)
    requires k in r.conns
  {
    && 1 <= r.conns[k] <= r.made && k in r.endpoints && k in r.links
    && r.endpoints[k] == r.conns[k] % ENDPOINTS && r.links[k] == r.endpoints[k]
  }

  predicate NumbersDistinct(r: Relays) {
    forall j, k :: j in r.conns && k in r.conns && r.conns[j] == r.conns[k] ==> j == k
  }

  predicate RelaysOk(r: Relays) {
    && Aligned(r)
    && (forall k :: k in r.conns ==> ConnOk(r, k)) && NumbersDistinct(r)
  }

  lemma EnsureKeeps(r: Relays, k: Key)
    requires RelaysOk(r)
    ensures RelaysOk(EnsureRelayLink(r, k))
  {
    var q := EnsureRelayLink(r, k);
    if k !in r.conns {
      assert k !in r.endpoints;
      forall j | j in q.conns
        ensures ConnOk(q, j) && (j != k ==> q.conns[j] < q.made)
      {
        if j != k {
          assert ConnOk(r, j);
        }
      }
    } else {
      assert ConnOk(r, k);
    }
  }

  predicate Aligned(r: Relays) {
    r.endpoints.Keys == r.conns.Keys == r.links.Keys
  }

  lemma EnsureKeys(r: Relays, k: Key)
    requires Aligned(r)
    ensures Aligned(EnsureRelayLink(r, k)) && EnsureRelayLink(r, k).conns.Keys == r.conns.Keys + {k}
  {
    assert k in r.endpoints <==> k in r.endpoints.Keys;
  }

  lemma {:induction false} VisitKeys(r: Relays, ps: seq<PeerInfo>, self: Key)
    requires Aligned(r)
    ensures Aligned(VisitRelays(r, ps, self))
    ensures VisitRelays(r, ps, self).conns.Keys == r.conns.Keys + KeysBut(ps, self)
  {
    if ps == [] {
      assert KeysBut(ps, self) == {};
    } else {
      var front, p := ps[..|ps| - 1], ps[|ps| - 1];
      VisitKeys(r, front, self);
      assert ps == front + [p];
      ButSnoc(front, p, self);
      EnsureKeys(VisitRelays(r, front, self), p.key);
    }
  }

  lemma {:induction false} VisitKeeps(r: Relays, ps: seq<PeerInfo>, self: Key)
    requires RelaysOk(r)
    ensures RelaysOk(VisitRelays(r, ps, self))
  {
    if ps != [] {
      VisitKeeps(r, ps[..|ps| - 1], self);
      EnsureKeeps(VisitRelays(r, ps[..|ps| - 1], self), ps[|ps| - 1].key);
    }
  }

  lemma ForgetKeeps(r: Relays, gone: set<Key>)
    requires RelaysOk(r)
    ensures RelaysOk(Forget(r, gone)) && Forget(r, gone).conns.Keys == r.conns.Keys - gone
  {
  }

  lemma {:induction false} ChangedCover(known: map<Key, PeerInfo>, incoming: seq<PeerInfo>, self: Key)
    ensures var ps := KeysBut(Changed(known, incoming), self);
      ps <= Index(incoming).Keys - {self} && Index(incoming).Keys - known.Keys - {self} <= ps
  {
    forall k | k in KeysBut(Changed(known, incoming), self)
      ensures k in Index(incoming)
    {
      var p :| p in Changed(known, incoming) && p.key == k;
      ChangedMembers(known, incoming, p);
      IndexKnows(incoming, k);
    }
    forall k | k in Index(incoming).Keys - known.Keys - {self}
      ensures k in KeysBut(Changed(known, incoming), self)
    {
      IndexKnows(incoming, k);
      ChangedMembers(known, incoming, Index(incoming)[k]);
      assert Index(incoming)[k] in Changed(known, incoming);
    }
  }

  predicate Reconciled(s: State, self: Key) {
    RelaysOk(s.relays) && s.relays.conns.Keys == s.known.Keys - {self}
  }

  lemma SyncReconciles(s: State, incoming: seq<PeerInfo>, self: Key)
    requires Reconciled(s, self)
    ensures Reconciled(Sync(s, incoming, self), self)
  {
    var ps := Changed(s.known, incoming);
    VisitKeeps(s.relays, ps, self);
    VisitKeys(s.relays, ps, self);
    ForgetKeeps(VisitRelays(s.relays, ps, self), Gone(s.known, incoming) - {self});
    ChangedCover(s.known, incoming, self);
  }

  lemma {:induction false} RunReconciles(syncs: seq<seq<PeerInfo>>, self: Key)
    ensures Reconciled(Run(syncs, self), self)
  {
    if syncs != [] {
      RunReconciles(syncs[..|syncs| - 1], self);
      SyncReconciles(Run(syncs[..|syncs| - 1], self), syncs[|syncs| - 1], self);
    }
  }

  /** After any syncs a link, an endpoint and a relay connection exist exactly for the
      peers of the last list other than the agent itself. */
  lemma {:induction false} LinksFollowPeers(syncs: seq<seq<PeerInfo>>, self: Key, k: Key)
    requires syncs != []
    ensures var r := Run(syncs, self).relays;
      var listed := k != self && exists p :: p in syncs[|syncs| - 1] && p.key == k;
      (k in r.links <==> listed) && (k in r.endpoints <==> listed) && (k in r.conns <==> listed)
  {
    RunReconciles(syncs, self);
    IndexKnows(syncs[|syncs| - 1], k);
  }

  /** While at most 65,536 relay connections were ever made, no two peers share an
      endpoint. */
  lemma {:induction false} EndpointsDistinct(syncs: seq<seq<PeerInfo>>, self: Key, j: Key, k: Key)
    requires var r := Run(syncs, self).relays;
      r.made <= ENDPOINTS && j in r.endpoints && k in r.endpoints && r.endpoints[j] == r.endpoints[k]
    ensures j == k
  {
    RunReconciles(syncs, self);
    var r := Run(syncs, self).relays;
    assert ConnOk(r, j) && ConnOk(r, k);
    LowBytes(r.conns[j], r.conns[k]);
  }

  lemma LowBytes(m: nat, n: nat)
    requires 1 <= m <= ENDPOINTS && 1 <= n <= ENDPOINTS && m % ENDPOINTS == n % ENDPOINTS
    ensures m == n
  {
  }

  // ---- DNS: what a sync makes of one name ----------------------------------------

  function Lookup(dns: map<string, string>, name: string): Option<string> {
    if name in dns then Some(dns[name]) else None
  }

  /** Visiting `p` writes `name`. */
  predicate Writes(p: PeerInfo, name: string) {
    Fqdn(p.dnsLabel) == name
  }

  /** Visiting `p` takes `name` away: it was the peer's old name. */
  predicate Drops(known: map<Key, PeerInfo>, p: PeerInfo, name: string) {
    Renamed(known, p) && Fqdn(known[p.key].dnsLabel) == name && !Writes(p, name)
  }

  predicate Touches(known: map<Key, PeerInfo>, p: PeerInfo, self: Key, name: string) {
    p.key != self && (Writes(p, name) || Drops(known, p, name))
  }

  /** The last visit of `ps` that touches `name`, or -1. */
  function LastTouch(known: map<Key, PeerInfo>, ps: seq<PeerInfo>, self: Key, name: string): (i: int)
    ensures -1 <= i < |ps| && (i >= 0 ==> Touches(known, ps[i], self, name))
    ensures forall j :: i < j < |ps| ==> !Touches(known, ps[j], self, name)
  {
    if ps == [] then -1
    else if Touches(known, ps[|ps| - 1], self, name) then |ps| - 1
    else LastTouch(known, ps[..|ps| - 1], self, name)
  }

  /** The last visit that touches a name decides it. */
  lemma {:induction false} VisitDnsAt(
    dns: map<string, string>, known: map<Key, PeerInfo>, ps: seq<PeerInfo>, self: Key, name: string)
    ensures var i := LastTouch(known, ps, self, name);
      Lookup(VisitDns(dns, known, ps, self), name)
      == if i < 0 then Lookup(dns, name) else if Writes(ps[i], name) then Some(ps[i].ip) else None
  {
    if ps != [] {
      VisitDnsAt(dns, known, ps[..|ps| - 1], self, name);
    }
  }

  /** A peer that left went by `name`. */
  predicate Left(known: map<Key, PeerInfo>, incoming: seq<PeerInfo>, self: Key, name: string) {
    name in Names(known, Gone(known, incoming) - {self})
  }

  lemma {:induction false} SyncAt(s: State, incoming: seq<PeerInfo>, self: Key, name: string)
    ensures var ps := Changed(s.known, incoming);
      var i := LastTouch(s.known, ps, self, name);
      Lookup(Sync(s, incoming, self).dns, name)
      == if Left(s.known, incoming, self, name) then None
         else if i < 0 then Lookup(s.dns, name)
         else if Writes(ps[i], name) then Some(ps[i].ip) else None
  {
    VisitDnsAt(s.dns, s.known, Changed(s.known, incoming), self, name);
  }

  // ---- DNS: when a sync keeps the records exact ----------------------------------

  /** The record of peer `k` is there with its address. */
  predicate Resolves(dns: map<string, string>, known: map<Key, PeerInfo>, k: Key)
    requires k in known
  {
    Lookup(dns, Fqdn(known[k].dnsLabel)) == Some(known[k].ip)
  }

  /** Peer `k`, not the agent itself, goes by `name`. */
  predicate HasName(known: map<Key, PeerInfo>, self: Key, k: Key, name: string) {
    k in known && k != self && Fqdn(known[k].dnsLabel) == name
  }

  predicate Named(known: map<Key, PeerInfo>, self: Key, name: string) {
    exists k :: k in known && HasName(known, self, k, name)
  }

  predicate DnsExact(dns: map<string, string>, known: map<Key, PeerInfo>, self: Key) {
    && (forall k :: k in known && k != self ==> Resolves(dns, known, k))
    && (forall name :: name in dns ==> Named(known, self, name))
  }

  /** Some peer had this name and this address. */
  predicate Recorded(known: map<Key, PeerInfo>, self: Key, name: string, ip: string) {
    exists k :: k in known && HasName(known, self, k, name) && known[k].ip == ip
  }

  predicate NoneDrops(known: map<Key, PeerInfo>, ps: seq<PeerInfo>, self: Key, name: string, from: nat) {
    forall j :: from <= j < |ps| && ps[j].key != self ==> !Drops(known, ps[j], name)
  }

  /** Visit `i` is of `p`, and nobody visited later is renamed away from its name. */
  predicate KeptFrom(known: map<Key, PeerInfo>, ps: seq<PeerInfo>, self: Key, p: PeerInfo, i: nat) {
    i < |ps| && ps[i] == p && NoneDrops(known, ps, self, Fqdn(p.dnsLabel), i + 1)
  }

  /** The listed peer's record survives the sync: no peer that left had its name, and
      nobody visited after it is renamed away from it. A peer that is not visited must
      have been recorded under that name before, and nobody may be renamed away from it. */
  predicate Survives(known: map<Key, PeerInfo>, incoming: seq<PeerInfo>, self: Key, p: PeerInfo) {
    var ps, name := Changed(known, incoming), Fqdn(p.dnsLabel);
    && !Left(known, incoming, self, name)
    && if p in ps then exists i :: 0 <= i < |ps| && KeptFrom(known, ps, self, p, i)
       else Recorded(known, self, name, p.ip) && NoneDrops(known, ps, self, name, 0)
  }

  /** The peer changes its name undetected, nobody uses the old one now, and nothing takes
      it away. */
  predicate Lingers(known: map<Key, PeerInfo>, incoming: seq<PeerInfo>, self: Key, j: Key) {
    var ps, idx := Changed(known, incoming), Index(incoming);
    && j in known && j in idx && j != self && !Differs(known[j], idx[j])
    && var name := Fqdn(known[j].dnsLabel);
       && !Named(idx, self, name) && !Left(known, incoming, self, name) && NoneDrops(known, ps, self, name, 0)
  }

  predicate UniqueNames(known: map<Key, PeerInfo>, self: Key) {
    forall j, k :: j in known && k in known && j != self && HasName(known, self, k, Fqdn(known[j].dnsLabel)) ==> j == k
  }

  predicate DistinctAddresses(known: map<Key, PeerInfo>) {
    forall j, k :: j in known && k in known && known[j].ip == known[k].ip ==> j == k
  }

  /** What two consecutive lists must satisfy. */
  predicate Orderly(known: map<Key, PeerInfo>, incoming: seq<PeerInfo>, self: Key) {
    && UniqueNames(Index(incoming), self)
    && (forall p :: p in incoming && p.key != self ==> Survives(known, incoming, self, p))
    && (forall j :: j in known ==> !Lingers(known, incoming, self, j))
  }

  lemma {:induction false} IndexOfDistinct(incoming: seq<PeerInfo>, p: PeerInfo)
    requires DistinctKeys(incoming) && p in incoming
    ensures p.key in Index(incoming) && Index(incoming)[p.key] == p
  {
    IndexKnows(incoming, p.key);
  }

  lemma {:induction false} ChangedIsListed(known: map<Key, PeerInfo>, incoming: seq<PeerInfo>, p: PeerInfo)
    requires DistinctKeys(incoming) && p in Changed(known, incoming)
    ensures p in incoming && p.key in Index(incoming) && Index(incoming)[p.key] == p
  {
    ChangedMembers(known, incoming, p);
    IndexOfDistinct(incoming, p);
  }

  /** With unique names, only `p` itself writes its name. */
  lemma {:induction false} OnlyWriter(
    known: map<Key, PeerInfo>, incoming: seq<PeerInfo>, self: Key, p: PeerInfo, q: PeerInfo)
    requires DistinctKeys(incoming) && UniqueNames(Index(incoming), self) && p in incoming && p.key != self
    requires q in Changed(known, incoming) && q.key != self && Writes(q, Fqdn(p.dnsLabel))
    ensures q == p
  {
    IndexOfDistinct(incoming, p);
    ChangedIsListed(known, incoming, q);
    assert HasName(Index(incoming), self, q.key, Fqdn(p.dnsLabel));
  }

  lemma RecordedIff(dns: map<string, string>, known: map<Key, PeerInfo>, self: Key, name: string, ip: string)
    requires DnsExact(dns, known, self)
    ensures Lookup(dns, name) == Some(ip) <==> Recorded(known, self, name, ip)
  {
    if name in dns {
      assert Named(known, self, name);
      var k :| k in known && HasName(known, self, k, name);
      assert Resolves(dns, known, k);
    }
    if Recorded(known, self, name, ip) {
      var k :| k in known && HasName(known, self, k, name) && known[k].ip == ip;
      assert Resolves(dns, known, k);
    }
  }

  /** Whether a visited peer's visit is the one that decides its name. */
  lemma {:induction false} VisitedDecides(known: map<Key, PeerInfo>, incoming: seq<PeerInfo>, self: Key, p: PeerInfo)
    requires DistinctKeys(incoming) && UniqueNames(Index(incoming), self) && p.key != self
    requires p in Changed(known, incoming)
    ensures var ps, name := Changed(known, incoming), Fqdn(p.dnsLabel);
      var i := LastTouch(known, ps, self, name);
      && i >= 0 && (Writes(ps[i], name) ==> ps[i] == p)
      && (Writes(ps[i], name) <==> exists n :: 0 <= n < |ps| && KeptFrom(known, ps, self, p, n))
  {
    var ps, name := Changed(known, incoming), Fqdn(p.dnsLabel);
    var i := LastTouch(known, ps, self, name);
    ChangedIsListed(known, incoming, p);
    var m :| 0 <= m < |ps| && ps[m] == p;
    assert Touches(known, ps[m], self, name);
    if Writes(ps[i], name) {
      OnlyWriter(known, incoming, self, p, ps[i]);
      assert KeptFrom(known, ps, self, p, i);
    } else {
      assert Drops(known, ps[i], name);
      forall n | 0 <= n < |ps|
        ensures !KeptFrom(known, ps, self, p, n)
      {
        assert ps[n] == p ==> n < i;
      }
    }
  }

  /** A peer that is not visited: its name is decided by others, or not at all. */
  lemma {:induction false} UnvisitedDecides(known: map<Key, PeerInfo>, incoming: seq<PeerInfo>, self: Key, p: PeerInfo)
    requires DistinctKeys(incoming) && UniqueNames(Index(incoming), self) && p.key != self
    requires p in incoming && p !in Changed(known, incoming)
    ensures var ps, name := Changed(known, incoming), Fqdn(p.dnsLabel);
      var i := LastTouch(known, ps, self, name);
      (i >= 0 ==> !Writes(ps[i], name)) && (i < 0 <==> NoneDrops(known, ps, self, name, 0))
  {
    var ps, name := Changed(known, incoming), Fqdn(p.dnsLabel);
    forall j | 0 <= j < |ps| && ps[j].key != self
      ensures !Writes(ps[j], name)
    {
      if Writes(ps[j], name) {
        OnlyWriter(known, incoming, self, p, ps[j]);
      }
    }
  }

  lemma {:induction false} ResolvesIff(s: State, incoming: seq<PeerInfo>, self: Key, p: PeerInfo)
    requires DistinctKeys(incoming) && UniqueNames(Index(incoming), self) && DnsExact(s.dns, s.known, self)
    requires p in incoming && p.key != self
    ensures Lookup(Sync(s, incoming, self).dns, Fqdn(p.dnsLabel)) == Some(p.ip) <==> Survives(s.known, incoming, self, p)
  {
    SyncAt(s, incoming, self, Fqdn(p.dnsLabel));
    if p in Changed(s.known, incoming) {
      VisitedDecides(s.known, incoming, self, p);
    } else {
      UnvisitedDecides(s.known, incoming, self, p);
      RecordedIff(s.dns, s.known, self, Fqdn(p.dnsLabel), p.ip);
    }
  }

  /** A name nobody uses now: no visit writes it. */
  lemma {:induction false} UnusedName(known: map<Key, PeerInfo>, incoming: seq<PeerInfo>, self: Key, name: string)
    requires DistinctKeys(incoming) && !Named(Index(incoming), self, name)
    ensures var ps := Changed(known, incoming);
      var i := LastTouch(known, ps, self, name);
      (i >= 0 ==> !Writes(ps[i], name)) && (i < 0 <==> NoneDrops(known, ps, self, name, 0))
  {
    var ps := Changed(known, incoming);
    forall j | 0 <= j < |ps| && ps[j].key != self
      ensures !Writes(ps[j], name)
    {
      var q := ps[j];
      ChangedIsListed(known, incoming, q);
      assert !HasName(Index(incoming), self, q.key, name);
    }
  }

  /** A peer whose old name nobody uses, and nothing takes away, was renamed undetected. */
  lemma {:induction false} UntakenLingers(
    known: map<Key, PeerInfo>, incoming: seq<PeerInfo>, self: Key, name: string, j: Key)
    requires Keyed(known) && DistinctKeys(incoming) && HasName(known, self, j, name) && !Named(Index(incoming), self, name)
    requires !Left(known, incoming, self, name) && NoneDrops(known, Changed(known, incoming), self, name, 0)
    ensures Lingers(known, incoming, self, j)
  {
    var ps, idx := Changed(known, incoming), Index(incoming);
    assert j in idx by {
      assert j !in idx ==> j in Gone(known, incoming) - {self};
    }
    IndexKnows(incoming, j);
    ChangedMembers(known, incoming, idx[j]);
    assert !HasName(idx, self, j, name);
    assert idx[j] !in ps by {
      assert Drops(known, idx[j], name);
    }
  }

  /** A name that is left over belongs to such a peer. */
  lemma LeftoverLingers(s: State, incoming: seq<PeerInfo>, self: Key, name: string) returns (j: Key)
    requires Keyed(s.known) && DistinctKeys(incoming) && DnsExact(s.dns, s.known, self)
    requires name in Sync(s, incoming, self).dns && !Named(Index(incoming), self, name)
    ensures j in s.known && Lingers(s.known, incoming, self, j)
  {
    SyncAt(s, incoming, self, name);
    UnusedName(s.known, incoming, self, name);
    assert Named(s.known, self, name);
    j :| j in s.known && HasName(s.known, self, j, name);
    UntakenLingers(s.known, incoming, self, name, j);
  }

  lemma {:induction false} LingeringStays(s: State, incoming: seq<PeerInfo>, self: Key, j: Key)
    requires DistinctKeys(incoming) && DnsExact(s.dns, s.known, self)
    requires j in s.known && Lingers(s.known, incoming, self, j)
    ensures !DnsExact(Sync(s, incoming, self).dns, Index(incoming), self)
  {
    var name := Fqdn(s.known[j].dnsLabel);
    SyncAt(s, incoming, self, name);
    UnusedName(s.known, incoming, self, name);
    assert Resolves(s.dns, s.known, j);
    assert name in Sync(s, incoming, self).dns;
  }

  lemma ExactNamesUnique(dns: map<string, string>, known: map<Key, PeerInfo>, self: Key)
    requires DnsExact(dns, known, self) && DistinctAddresses(known)
    ensures UniqueNames(known, self)
  {
    forall j, k | j in known && k in known && j != self && HasName(known, self, k, Fqdn(known[j].dnsLabel))
      ensures j == k
    {
      assert Resolves(dns, known, j) && Resolves(dns, known, k);
    }
  }

  /** From exact records, a sync leaves the records exact if and only if the two lists are
      orderly: names are unique, every record survives and no old name lingers. */
  lemma {:induction false} SyncExactIff(s: State, incoming: seq<PeerInfo>, self: Key)
    requires Keyed(s.known) && DistinctKeys(incoming) && DistinctAddresses(Index(incoming))
    requires DnsExact(s.dns, s.known, self)
    ensures DnsExact(Sync(s, incoming, self).dns, Index(incoming), self) <==> Orderly(s.known, incoming, self)
  {
    if DnsExact(Sync(s, incoming, self).dns, Index(incoming), self) {
      ExactIsOrderly(s, incoming, self);
    }
    if Orderly(s.known, incoming, self) {
      OrderlyIsExact(s, incoming, self);
    }
  }

  lemma {:induction false} ExactIsOrderly(s: State, incoming: seq<PeerInfo>, self: Key)
    requires DistinctKeys(incoming) && DistinctAddresses(Index(incoming)) && DnsExact(s.dns, s.known, self)
    requires DnsExact(Sync(s, incoming, self).dns, Index(incoming), self)
    ensures Orderly(s.known, incoming, self)
  {
    var dns, idx := Sync(s, incoming, self).dns, Index(incoming);
    ExactNamesUnique(dns, idx, self);
    forall p | p in incoming && p.key != self
      ensures Survives(s.known, incoming, self, p)
    {
      IndexOfDistinct(incoming, p);
      assert Resolves(dns, idx, p.key);
      ResolvesIff(s, incoming, self, p);
    }
    forall j | j in s.known
      ensures !Lingers(s.known, incoming, self, j)
    {
      if Lingers(s.known, incoming, self, j) {
        LingeringStays(s, incoming, self, j);
      }
    }
  }

  lemma {:induction false} OrderlyIsExact(s: State, incoming: seq<PeerInfo>, self: Key)
    requires Keyed(s.known) && DistinctKeys(incoming) && DnsExact(s.dns, s.known, self)
    requires Orderly(s.known, incoming, self)
    ensures DnsExact(Sync(s, incoming, self).dns, Index(incoming), self)
  {
    var dns, idx := Sync(s, incoming, self).dns, Index(incoming);
    forall k | k in idx && k != self
      ensures Resolves(dns, idx, k)
    {
      IndexKnows(incoming, k);
      ResolvesIff(s, incoming, self, idx[k]);
    }
    forall name | name in dns
      ensures Named(idx, self, name)
    {
      if !Named(idx, self, name) {
        var j := LeftoverLingers(s, incoming, self, name);
      }
    }
  }

  // ---- DNS over every run --------------------------------------------------------

  /** The list in force before sync `n`, by key. */
  function Before(syncs: seq<seq<PeerInfo>>, n: nat): map<Key, PeerInfo>
    requires n <= |syncs|
  {
    if n == 0 then map[] else Index(syncs[n - 1])
  }

  predicate ExactAfter(syncs: seq<seq<PeerInfo>>, self: Key, n: nat)
    requires n <= |syncs|
  {
    DnsExact(Run(syncs[..n], self).dns, Before(syncs, n), self)
  }

  lemma {:induction false} RunStep(syncs: seq<seq<PeerInfo>>, self: Key, n: nat)
    requires n < |syncs|
    ensures Run(syncs[..n + 1], self) == Sync(Run(syncs[..n], self), syncs[n], self)
    ensures Run(syncs[..n], self).known == Before(syncs, n) && Keyed(Before(syncs, n))
  {
    assert syncs[..n + 1][..n] == syncs[..n];
    if n > 0 {
      forall k | k in Before(syncs, n)
        ensures Before(syncs, n)[k].key == k
      {
        IndexKnows(syncs[n - 1], k);
      }
    }
  }

  /** Every list names each key once and no address twice, as the server's do. */
  predicate WellFormed(syncs: seq<seq<PeerInfo>>, n: nat)
    requires n <= |syncs|
  {
    n > 0 ==> DistinctKeys(syncs[n - 1]) && DistinctAddresses(Index(syncs[n - 1])) && WellFormed(syncs, n - 1)
  }

  predicate AlwaysOrderly(syncs: seq<seq<PeerInfo>>, self: Key, n: nat)
    requires n <= |syncs|
  {
    n > 0 ==> Orderly(Before(syncs, n - 1), syncs[n - 1], self) && AlwaysOrderly(syncs, self, n - 1)
  }

  predicate AlwaysExact(syncs: seq<seq<PeerInfo>>, self: Key, n: nat)
    requires n <= |syncs|
  {
    ExactAfter(syncs, self, n) && (n > 0 ==> AlwaysExact(syncs, self, n - 1))
  }

  lemma ExactStep(syncs: seq<seq<PeerInfo>>, self: Key, n: nat)
    requires n < |syncs| && DistinctKeys(syncs[n]) && DistinctAddresses(Index(syncs[n])) && ExactAfter(syncs, self, n)
    ensures ExactAfter(syncs, self, n + 1) <==> Orderly(Before(syncs, n), syncs[n], self)
  {
    RunStep(syncs, self, n);
    SyncExactIff(Run(syncs[..n], self), syncs[n], self);
  }

  /** In every run the records are exactly the peers' names and addresses after each of
      the first `n` syncs if and only if each list and the one before it are orderly. */
  lemma {:induction false} DnsFollowsPeers(syncs: seq<seq<PeerInfo>>, self: Key, n: nat)
    requires n <= |syncs| && WellFormed(syncs, n)
    ensures AlwaysExact(syncs, self, n) <==> AlwaysOrderly(syncs, self, n)
  {
    if n == 0 {
      assert ExactAfter(syncs, self, 0);
    } else {
      DnsFollowsPeers(syncs, self, n - 1);
      if ExactAfter(syncs, self, n - 1) {
        ExactStep(syncs, self, n - 1);
      }
    }
  }

  /** Peer `k` of one of the two lists goes by `name`. */
  predicate GoesBy(a: map<Key, PeerInfo>, b: map<Key, PeerInfo>, self: Key, k: Key, name: string) {
    HasName(a, self, k, name) || HasName(b, self, k, name)
  }

  /** No name is used by two keys, across the old and the new list. */
  ghost predicate NoClash(a: map<Key, PeerInfo>, b: map<Key, PeerInfo>, self: Key) {
    forall j, k, name :: GoesBy(a, b, self, j, name) && GoesBy(a, b, self, k, name) ==> j == k
  }

  /** A record whose name changes also changes in a field the diff compares. */
  predicate RenamesDetected(a: map<Key, PeerInfo>, b: map<Key, PeerInfo>, self: Key) {
    forall k :: k in a && k in b && k != self && Fqdn(a[k].dnsLabel) != Fqdn(b[k].dnsLabel) ==> Differs(a[k], b[k])
  }

  /** Lists are orderly when no name is used by two keys, neither within a list nor across
      the two, and every change of name is one the diff detects. */
  lemma {:induction false} NoClashIsOrderly(known: map<Key, PeerInfo>, incoming: seq<PeerInfo>, self: Key)
    requires Keyed(known) && DistinctKeys(incoming)
    requires NoClash(known, Index(incoming), self) && RenamesDetected(known, Index(incoming), self)
    ensures Orderly(known, incoming, self)
  {
    var idx := Index(incoming);
    forall j, k | j in idx && k in idx && j != self && HasName(idx, self, k, Fqdn(idx[j].dnsLabel))
      ensures j == k
    {
      assert GoesBy(known, idx, self, j, Fqdn(idx[j].dnsLabel)) && GoesBy(known, idx, self, k, Fqdn(idx[j].dnsLabel));
    }
    forall p | p in incoming && p.key != self
      ensures Survives(known, incoming, self, p)
    {
      NoClashSurvives(known, incoming, self, p);
    }
  }

  lemma {:induction false} NoClashSurvives(known: map<Key, PeerInfo>, incoming: seq<PeerInfo>, self: Key, p: PeerInfo)
    requires Keyed(known) && DistinctKeys(incoming) && p in incoming && p.key != self
    requires NoClash(known, Index(incoming), self) && RenamesDetected(known, Index(incoming), self)
    ensures Survives(known, incoming, self, p)
  {
    var ps, idx, name := Changed(known, incoming), Index(incoming), Fqdn(p.dnsLabel);
    IndexOfDistinct(incoming, p);
    assert GoesBy(known, idx, self, p.key, name);
    forall k | k in Gone(known, incoming) - {self}
      ensures Fqdn(known[k].dnsLabel) != name
    {
      assert Fqdn(known[k].dnsLabel) == name ==> GoesBy(known, idx, self, k, name);
    }
    forall j | 0 <= j < |ps| && ps[j].key != self
      ensures !Drops(known, ps[j], name)
    {
      ChangedIsListed(known, incoming, ps[j]);
      assert Drops(known, ps[j], name) ==> GoesBy(known, idx, self, ps[j].key, name);
    }
    if p in ps {
      var i :| 0 <= i < |ps| && ps[i] == p;
      assert KeptFrom(known, ps, self, p, i);
    } else {
      ChangedMembers(known, incoming, p);
      assert HasName(known, self, p.key, name);
    }
  }

  lemma SingleIndex(p: PeerInfo)
    ensures Index([p]) == map[p.key := p]
  {
  }

  /** Names must not pass between keys: a newcomer that takes over the name of a peer
      leaving in the same list ends up without a record. */
  lemma {:induction false} HandoverLosesName(a: PeerInfo, b: PeerInfo, self: Key)
    requires a.key != b.key && a.key != self && b.key != self && Fqdn(a.dnsLabel) == Fqdn(b.dnsLabel)
    ensures Fqdn(b.dnsLabel) !in Run([[a], [b]], self).dns
  {
    var s := Run([[a]], self);
    assert [[a], [b]][..1] == [[a]];
    SingleIndex(a);
    SingleIndex(b);
    assert s.known == Index([a]);
    assert a.key in s.known.Keys && a.key !in Index([b]).Keys;
    assert a.key in Gone(s.known, [b]) - {self};
  }
}
