/** Enrollment and the administrative edits of peer records, over every run. */
module Enrollment {
  import opened Domain
  import opened Ipam

  datatype SetupKey = SetupKey(
    id: string, account: Account, ephemeral: bool, used: nat, autoGroups: seq<string>, expires: int)

  /** `setupKeys` is indexed by secret, `peers` by WireGuard key. */
  datatype Store = Store(setupKeys: map<string, SetupKey>, peers: map<Key, Peer>, pool: Pool)

  datatype Reply =
    | Done
    | Admitted(ip: Addr)
    | BadRequest
    | Unauthenticated
    | Exhausted
    | Denied
    | Missing

  // ---- Operations ----------------------------------------------------------------

  /** What an agent reports about its device. */
  datatype Meta = Meta(hostname: string, os: string, kernel: string, version: string, localIP: string)

  /** What an enrolling agent sends, from address `publicIP`; `id` and `dnsName` are the
      identifier and the DNS label the server draws for it. */
  datatype Request = Request(secret: string, key: Key, meta: Meta, publicIP: string, id: string, dnsName: string)

  predicate Valid(sk: SetupKey, now: int) {
    now <= sk.expires && !(sk.ephemeral && sk.used > 0)
  }

  function EnrollGroups(auto: seq<string>): (r: seq<string>)
    ensures forall g :: g in r <==> g == DEFAULT_GROUP || g in auto
  {
    if auto == [] then [DEFAULT_GROUP]
    else
      var front := EnrollGroups(auto[..|auto| - 1]);
      var g := auto[|auto| - 1];
      assert forall h :: h in auto <==> h in auto[..|auto| - 1] || h == g;
      if g == DEFAULT_GROUP then front else front + [g]
  }

  function FirstSeen(meta: Meta, publicIP: string, now: int): Device {
    Device(meta.os, meta.kernel, meta.version, meta.localIP, publicIP, "", now, now)
  }

  /** The record a login saves. A known key keeps what operators manage. */
  function Enrolled(sk: SetupKey, req: Request, ip: Addr, now: int, known: Option<Peer>): Peer {
    var drawn := Peer(req.id, sk.account, req.key, Some(ip), req.meta.hostname, req.dnsName,
                      EnrollGroups(sk.autoGroups), [], "", FirstSeen(req.meta, req.publicIP, now));
    match known
    case None => drawn
    case Some(p) =>
      drawn.(id := p.id, groups := p.groups, routes := p.routes, hostname := p.hostname, dnsLabel := p.dnsLabel,
             device := drawn.device.(createdAt := p.device.createdAt))
  }

  function Find(peers: map<Key, Peer>, key: Key): Option<Peer> {
    if key in peers then Some(peers[key]) else None
  }

  function Used(setupKeys: map<string, SetupKey>, secret: string): map<string, SetupKey>
    requires secret in setupKeys
  {
    setupKeys[secret := setupKeys[secret].(used := setupKeys[secret].used + 1)]
  }

  function Login(s: Store, req: Request, now: int): (Store, Reply) {
    if |req.secret| == 0 || |req.key| == 0 then (s, BadRequest)
    else if req.secret !in s.setupKeys || !Valid(s.setupKeys[req.secret], now) then (s, Unauthenticated)
    else
      var sk := s.setupKeys[req.secret];
      var (pool, ip) := Allocate(s.pool, req.key);
      if ip.None? then (s, Exhausted)
      else if req.key in s.peers && s.peers[req.key].account != sk.account then (s.(pool := pool), Denied)
      else
        var peer := Enrolled(sk, req, ip.value, now, Find(s.peers, req.key));
        (Store(Used(s.setupKeys, req.secret), s.peers[req.key := peer], pool), Admitted(ip.value))
  }

  predicate GroupNameChar(c: char) {
    'A' <= c <= 'Z' || 'a' <= c <= 'z' || '0' <= c <= '9' || c == '_' || c == '-'
  }

  predicate ValidGroupName(g: string) {
    0 < |g| <= 64 && g[0] != '_' && g[0] != '-' && forall i :: 0 <= i < |g| ==> GroupNameChar(g[i])
  }

  predicate ValidGroups(groups: seq<string>) {
    forall i :: 0 <= i < |groups| ==> ValidGroupName(groups[i])
  }

  function WithDefault(groups: seq<string>): seq<string> {
    if DEFAULT_GROUP in groups then groups else [DEFAULT_GROUP] + groups
  }

  /** The error the handlers share before they touch a record. */
  function Access(s: Store, account: Account, key: Key): Reply {
    if key !in s.peers then Missing else if s.peers[key].account != account then Denied else Done
  }

  /** `name` is the trimmed new device name, if one is given. The record is the stored
      one, so a rejected name leaves the groups already changed. */
  function Update(s: Store, account: Account, key: Key, groups: seq<string>, name: Option<string>, dnsName: string)
    : (Store, Reply)
  {
    if Access(s, account, key) != Done then (s, Access(s, account, key))
    else if !ValidGroups(groups) then (s, BadRequest)
    else
      var grouped := s.peers[key].(groups := WithDefault(groups));
      if name.None? then (s.(peers := s.peers[key := grouped]), Done)
      else if !(0 < |name.value| <= 63) then (s.(peers := s.peers[key := grouped]), BadRequest)
      else (s.(peers := s.peers[key := grouped.(hostname := name.value, dnsLabel := dnsName)]), Done)
  }

  /** The agent reports about its device. An empty local address keeps the old one. */
  function UpdateMeta(s: Store, key: Key, meta: Option<Meta>, dnsName: string, now: int): (Store, Reply) {
    if |key| == 0 then (s, BadRequest)
    else if key !in s.peers then (s, Missing)
    else
      var p := s.peers[key];
      var d := p.device.(lastSeen := now);
      var reported := match meta
        case None => p.(device := d)
        case Some(m) =>
          p.(hostname := m.hostname, dnsLabel := dnsName,
             device := d.(os := m.os, kernel := m.kernel, version := m.version,
                          localIP := if |m.localIP| == 0 then d.localIP else m.localIP));
      (s.(peers := s.peers[key := reported]), Done)
  }

  /** The country looked up for an address, unless the peer has moved on meanwhile. */
  function Locate(s: Store, key: Key, publicIP: string, country: string): Store {
    if key !in s.peers || s.peers[key].device.publicIP != publicIP then s
    else s.(peers := s.peers[key := s.peers[key].(device := s.peers[key].device.(country := country))])
  }

  /** A parsed network: the addresses from `base` on, or one of the other family. */
  datatype Cidr = V4(base: Addr, size: nat) | V6

  const MESH_BASE: Addr := 0x6440_0000
  const MESH_SIZE: nat := 0x40_0000

  predicate Within(a: int, base: int, size: nat) {
    base <= a < base + size
  }

  /** The network shares no address with the mesh block. */
  ghost predicate Clear(c: Cidr) {
    c.V4? ==> forall a :: Within(a, c.base, c.size) ==> !Within(a, MESH_BASE, MESH_SIZE)
  }

  /** Every route is a default route or a network clear of the mesh. */
  ghost predicate RoutesClear(parse: string -> Option<Cidr>, routes: seq<string>) {
    forall i :: 0 <= i < |routes| ==> IsDefault(routes[i]) || (parse(routes[i]).Some? && Clear(parse(routes[i]).value))
  }

  /** The handler's test looks at two addresses only, and that is enough. */
  method ValidateRoutes(parse: string -> Option<Cidr>, routes: seq<string>) returns (ok: bool)
    requires forall r :: r in routes && parse(r).Some? && parse(r).value.V4? ==> parse(r).value.size > 0
    ensures ok <==> RoutesClear(parse, routes)
  {
    for i := 0 to |routes|
      invariant RoutesClear(parse, routes[..i])
    {
      var r := routes[i];
      assert r in routes;
      if !IsDefault(r) {
        if parse(r).None? {
          return false;
        }
        var c := parse(r).value;
        if c.V4? && (Within(c.base, MESH_BASE, MESH_SIZE) || Within(MESH_BASE, c.base, c.size)) {
          assert Within(c.base, c.base, c.size) && Within(MESH_BASE, MESH_BASE, MESH_SIZE);
          return false;
        }
      }
    }
    assert routes[..|routes|] == routes;
    return true;
  }

  /** `valid` says the routes pass the handler's test. */
  function SetRoutes(s: Store, account: Account, key: Key, routes: seq<string>, valid: bool): (Store, Reply) {
    if !valid then (s, BadRequest)
    else if Access(s, account, key) != Done then (s, Access(s, account, key))
    else (s.(peers := s.peers[key := s.peers[key].(routes := routes)]), Done)
  }

  predicate Offers(s: Store, account: Account, gateway: Key) {
    gateway in s.peers && s.peers[gateway].account == account && DEFAULT_ROUTE in s.peers[gateway].routes
  }

  function SetExitNode(s: Store, account: Account, key: Key, gateway: Key): (Store, Reply) {
    if Access(s, account, key) != Done then (s, Access(s, account, key))
    else if gateway == key then (s, BadRequest)
    else if |gateway| > 0 && !Offers(s, account, gateway) then (s, BadRequest)
    else (s.(peers := s.peers[key := s.peers[key].(exitNode := gateway)]), Done)
  }

  function Delete(s: Store, account: Account, key: Key): (Store, Reply) {
    if Access(s, account, key) != Done then (s, Access(s, account, key))
    else (s.(peers := s.peers - {key}, pool := Release(s.pool, key)), Done)
  }

  /** Identifiers of setup keys are drawn fresh, so one key carries each. */
  predicate UniqueIds(setupKeys: map<string, SetupKey>) {
    forall a, b :: a in setupKeys && b in setupKeys && setupKeys[a].id == setupKeys[b].id ==> a == b
  }

  method JoinGroups(auto: seq<string>) returns (groups: seq<string>)
    ensures groups == EnrollGroups(auto)
  {
    groups := [DEFAULT_GROUP];
    for i := 0 to |auto|
      invariant groups == EnrollGroups(auto[..i])
    {
      assert auto[..i + 1][..i] == auto[..i];
      if auto[i] != DEFAULT_GROUP {
        groups := groups + [auto[i]];
      }
    }
    assert auto[..|auto|] == auto;
  }

  // ---- The server's own form -----------------------------------------------------

  class Management {
    var setupKeys: map<string, SetupKey>
    var peers: map<Key, Peer>
    const ipam: IPAM

    constructor (base: Addr, bits: Bits)
      ensures Value() == Store(map[], map[], New(base, bits)) && fresh(ipam)
    {
      setupKeys, peers := map[], map[];
      ipam := new IPAM(base, bits);
    }

    function Value(): Store
      reads this, ipam
    {
      Store(setupKeys, peers, ipam.Value())
    }

    method IncrementSetupKeyUsage(id: string)
      requires UniqueIds(setupKeys)
      modifies this`setupKeys
      ensures forall a :: a in old(setupKeys) && old(setupKeys)[a].id == id ==> setupKeys == Used(old(setupKeys), a)
      ensures (forall a :: a in old(setupKeys) ==> old(setupKeys)[a].id != id) ==> setupKeys == old(setupKeys)
    {
      var todo := setupKeys.Keys;
      while todo != {}
        invariant setupKeys == old(setupKeys) && todo <= setupKeys.Keys
        invariant forall a :: a in setupKeys && a !in todo ==> setupKeys[a].id != id
      {
        var a :| a in todo;
        if setupKeys[a].id == id {
          setupKeys := Used(setupKeys, a);
          return;
        }
        todo := todo - {a};
      }
    }

    method LoginPeer(req: Request, now: int) returns (reply: Reply)
      requires UniqueIds(setupKeys)
      modifies this, ipam
      ensures (Value(), reply) == Login(old(Value()), req, now)
    {
      if |req.secret| == 0 || |req.key| == 0 {
        return BadRequest;
      }
      if req.secret !in setupKeys || now > setupKeys[req.secret].expires {
        return Unauthenticated;
      }
      var sk := setupKeys[req.secret];
      if sk.ephemeral && sk.used > 0 {
        return Unauthenticated;
      }
      var ip := ipam.AllocateKey(req.key);
      if ip.None? {
        return Exhausted;
      }
      var groups := JoinGroups(sk.autoGroups);
      var device := Device(req.meta.os, req.meta.kernel, req.meta.version, req.meta.localIP, req.publicIP, "", now, now);
      var peer := Peer(req.id, sk.account, req.key, ip, req.meta.hostname, req.dnsName, groups, [], "", device);
      if req.key in peers {
        var existing := peers[req.key];
        if existing.account != sk.account {
          return Denied;
        }
        peer := peer.(id := existing.id, device := device.(createdAt := existing.device.createdAt));
        peer := peer.(groups := existing.groups, routes := existing.routes);
        peer := peer.(hostname := existing.hostname, dnsLabel := existing.dnsLabel);
      }
      peers := peers[req.key := peer];
      IncrementSetupKeyUsage(sk.id);
      return Admitted(ip.value);
    }

    /** The record is edited where it lies: each assignment is in the store at once. */
    method UpdatePeer(account: Account, key: Key, groups: seq<string>, name: Option<string>, dnsName: string)
      returns (reply: Reply)
      modifies this`peers
      ensures (Value(), reply) == Update(old(Value()), account, key, groups, name, dnsName)
    {
      reply := Checked(account, key);
      if reply != Done {
        return;
      }
      for i := 0 to |groups|
        invariant peers == old(peers) && forall j :: 0 <= j < i ==> ValidGroupName(groups[j])
      {
        if !ValidGroupName(groups[i]) {
          return BadRequest;
        }
      }
      var all := EnsureDefaultGroup(groups);
      peers := peers[key := peers[key].(groups := all)];
      if name.Some? {
        if |name.value| == 0 || |name.value| > 63 {
          return BadRequest;
        }
        peers := peers[key := peers[key].(hostname := name.value, dnsLabel := dnsName)];
        assert peers == old(peers)[key := peers[key]];
      }
    }

    method Checked(account: Account, key: Key) returns (reply: Reply)
      ensures reply == Access(Value(), account, key)
    {
      if key !in peers {
        return Missing;
      }
      if peers[key].account != account {
        return Denied;
      }
      return Done;
    }

    method SetPeerRoutes(account: Account, key: Key, routes: seq<string>, parse: string -> Option<Cidr>)
      returns (reply: Reply)
      requires forall r :: r in routes && parse(r).Some? && parse(r).value.V4? ==> parse(r).value.size > 0
      modifies this`peers
      ensures (Value(), reply) == SetRoutes(old(Value()), account, key, routes, RoutesClear(parse, routes))
    {
      var valid := ValidateRoutes(parse, routes);
      if !valid {
        return BadRequest;
      }
      reply := Checked(account, key);
      if reply == Done {
        peers := peers[key := peers[key].(routes := routes)];
      }
    }

    method SetPeerExitNode(account: Account, key: Key, gateway: Key) returns (reply: Reply)
      modifies this`peers
      ensures (Value(), reply) == SetExitNode(old(Value()), account, key, gateway)
    {
      reply := Checked(account, key);
      if reply != Done {
        return;
      }
      if gateway == key {
        return BadRequest;
      }
      if |gateway| > 0 {
        if gateway !in peers || peers[gateway].account != account {
          return BadRequest;
        }
        var advertised, offers := peers[gateway].routes, false;
        for i := 0 to |advertised|
          invariant peers == old(peers) && (offers <==> DEFAULT_ROUTE in advertised[..i])
        {
          offers := offers || advertised[i] == DEFAULT_ROUTE;
        }
        if !offers {
          return BadRequest;
        }
      }
      peers := peers[key := peers[key].(exitNode := gateway)];
    }

    method DeletePeer(account: Account, key: Key) returns (reply: Reply)
      modifies this`peers, ipam
      ensures (Value(), reply) == Delete(old(Value()), account, key)
    {
      reply := Checked(account, key);
      if reply == Done {
        peers := peers - {key};
        ipam.ReleaseKey(key);
      }
    }
  }

  method EnsureDefaultGroup(groups: seq<string>) returns (r: seq<string>)
    ensures r == WithDefault(groups) && forall g :: g in r <==> g == DEFAULT_GROUP || g in groups
  {
    for i := 0 to |groups|
      invariant DEFAULT_GROUP !in groups[..i]
    {
      if groups[i] == DEFAULT_GROUP {
        return groups;
      }
    }
    return [DEFAULT_GROUP] + groups;
  }

  // ---- Runs ----------------------------------------------------------------------

  datatype Event =
    | Enroll(req: Request, now: int)
    | Edit(account: Account, key: Key, groups: seq<string>, name: Option<string>, dnsName: string)
    | Report(agent: Key, meta: Option<Meta>, dnsLabel: string, at: int)
    | Found(located: Key, publicIP: string, country: string)
    | Advertise(owner: Account, router: Key, routes: seq<string>, valid: bool)
    | Select(operator: Account, chooser: Key, gateway: Key)
    | Remove(admin: Account, gone: Key)
    | CreateKey(secret: string, setup: SetupKey)
    | DeleteKey(holder: Account, id: string)

  /** Logins completed with one setup key, kept for every key ever created. */
  datatype Usage = Usage(ephemeral: bool, logins: nat)

  datatype State = State(store: Store, ledger: map<string, Usage>)

  function StoreStep(s: State, e: Event): Store {
    match e
    case Enroll(req, now) => Login(s.store, req, now).0
    case Edit(a, k, groups, name, dnsName) => Update(s.store, a, k, groups, name, dnsName).0
    case Report(k, meta, dnsName, now) => UpdateMeta(s.store, k, meta, dnsName, now).0
    case Found(k, ip, country) => Locate(s.store, k, ip, country)
    case Advertise(a, k, routes, valid) => SetRoutes(s.store, a, k, routes, valid).0
    case Select(a, k, gateway) => SetExitNode(s.store, a, k, gateway).0
    case Remove(a, k) => Delete(s.store, a, k).0
    case CreateKey(secret, sk) =>
      // Secret and identifier are drawn at random and have never been used.
      if secret in s.store.setupKeys || sk.id in s.ledger || sk.used > 0 then s.store
      else s.store.(setupKeys := s.store.setupKeys[secret := sk])
    case DeleteKey(a, id) =>
      var keys := s.store.setupKeys;
      s.store.(setupKeys := map k | k in keys && !(keys[k].id == id && keys[k].account == a) :: keys[k])
  }

  function Record(s: State, e: Event): map<string, Usage> {
    match e
    case Enroll(req, now) =>
      if !Login(s.store, req, now).1.Admitted? then s.ledger
      else
        var id := s.store.setupKeys[req.secret].id;
        if id in s.ledger then s.ledger[id := s.ledger[id].(logins := s.ledger[id].logins + 1)] else s.ledger
    case CreateKey(secret, sk) =>
      if secret in s.store.setupKeys || sk.id in s.ledger || sk.used > 0 then s.ledger
      else s.ledger[sk.id := Usage(sk.ephemeral, 0)]
    case _ => s.ledger
  }

  function Step(s: State, e: Event): State {
    State(StoreStep(s, e), Record(s, e))
  }

  function Run(base: Addr, bits: Bits, es: seq<Event>): State {
    if es == [] then State(Store(map[], map[], New(base, bits)), map[])
    else Step(Run(base, bits, es[..|es| - 1]), es[|es| - 1])
  }

  // ---- Peers and leases ----------------------------------------------------------

  /** The record filed under a key: its address is the key's live lease. */
  predicate PeerOk(s: Store, k: Key)
    requires k in s.peers
  {
    var p := s.peers[k];
    p.key == k && k in s.pool.leased && p.ip == Some(s.pool.leased[k]) && DEFAULT_GROUP in p.groups
  }

  predicate PeersOk(s: Store) {
    Sound(s.pool) && forall k :: k in s.peers ==> PeerOk(s, k)
  }

  lemma EditKeeps(s: Store, k: Key, p: Peer)
    requires PeersOk(s) && k in s.peers
    requires p.key == k && p.ip == s.peers[k].ip && DEFAULT_GROUP in p.groups
    ensures PeersOk(s.(peers := s.peers[k := p]))
  {
  }

  lemma LoginKeeps(s: Store, req: Request, now: int)
    requires PeersOk(s)
    ensures PeersOk(Login(s, req, now).0)
  {
    var t := Login(s, req, now).0;
    AllocateSound(s.pool, req.key);
    forall k | k in t.peers
      ensures PeerOk(t, k)
    {
      if k in s.peers {
        assert PeerOk(s, k);
      }
    }
  }

  lemma DeleteKeeps(s: Store, account: Account, key: Key)
    requires PeersOk(s)
    ensures PeersOk(Delete(s, account, key).0)
  {
  }

  lemma KeysAside(s: Store, setupKeys: map<string, SetupKey>)
    requires PeersOk(s)
    ensures PeersOk(s.(setupKeys := setupKeys))
  {
  }

  /** The administrative edits of one record. */
  lemma AdminKeeps(s: State, e: Event)
    requires PeersOk(s.store) && (e.Edit? || e.Advertise? || e.Select?)
    ensures PeersOk(StoreStep(s, e))
  {
    match e
    case Edit(a, k, groups, name, dnsName) =>
      if k in s.store.peers {
        assert PeerOk(s.store, k);
        var p := s.store.peers[k].(groups := WithDefault(groups));
        EditKeeps(s.store, k, p);
        if name.Some? {
          EditKeeps(s.store, k, p.(hostname := name.value, dnsLabel := dnsName));
        }
      }
    case Advertise(a, k, routes, valid) =>
      if k in s.store.peers {
        assert PeerOk(s.store, k);
        EditKeeps(s.store, k, s.store.peers[k].(routes := routes));
      }
    case Select(a, k, gateway) =>
      if k in s.store.peers {
        assert PeerOk(s.store, k);
        EditKeeps(s.store, k, s.store.peers[k].(exitNode := gateway));
      }
  }

  /** What becomes known about a device. */
  lemma DeviceKeeps(s: State, e: Event)
    requires PeersOk(s.store) && (e.Report? || e.Found?)
    ensures PeersOk(StoreStep(s, e))
  {
    var k := if e.Report? then e.agent else e.located;
    if k in s.store.peers {
      assert PeerOk(s.store, k);
      EditKeeps(s.store, k, StoreStep(s, e).peers[k]);
    }
  }

  lemma StepKeepsPeers(s: State, e: Event)
    requires PeersOk(s.store)
    ensures PeersOk(StoreStep(s, e))
  {
    match e
    case Enroll(req, now) => LoginKeeps(s.store, req, now);
    case Remove(a, k) => DeleteKeeps(s.store, a, k);
    case CreateKey(secret, sk) => KeysAside(s.store, StoreStep(s, e).setupKeys);
    case DeleteKey(a, id) => KeysAside(s.store, StoreStep(s, e).setupKeys);
    case Report(_, _, _, _) => DeviceKeeps(s, e);
    case Found(_, _, _) => DeviceKeeps(s, e);
    case _ => AdminKeeps(s, e);
  }

  lemma {:induction false} RunKeepsPeers(base: Addr, bits: Bits, es: seq<Event>)
    requires IsBlock(base, bits) && bits <= 30
    ensures PeersOk(Run(base, bits, es).store)
  {
    if es == [] {
      NewSound(base, bits);
    } else {
      RunKeepsPeers(base, bits, es[..|es| - 1]);
      StepKeepsPeers(Run(base, bits, es[..|es| - 1]), es[|es| - 1]);
    }
  }

  /** In every reachable store a peer's address is its live lease, a peer is in
      Default, and two peers have different addresses. */
  lemma {:induction false} StoredPeers(base: Addr, bits: Bits, es: seq<Event>, j: Key, k: Key)
    requires IsBlock(base, bits) && bits <= 30
    requires var s := Run(base, bits, es).store; j in s.peers && k in s.peers
    ensures var s := Run(base, bits, es).store;
      && s.peers[k].key == k && DEFAULT_GROUP in s.peers[k].groups
      && k in s.pool.leased && s.peers[k].ip == Some(s.pool.leased[k])
      && (s.peers[j].ip == s.peers[k].ip ==> j == k)
  {
    RunKeepsPeers(base, bits, es);
    var s := Run(base, bits, es).store;
    assert PeerOk(s, j) && PeerOk(s, k);
  }

  // ---- Accounts ------------------------------------------------------------------

  lemma StepKeepsAccount(s: State, e: Event, k: Key)
    requires k in s.store.peers && k in StoreStep(s, e).peers
    ensures StoreStep(s, e).peers[k].account == s.store.peers[k].account
  {
  }

  predicate EnrolledAfter(base: Addr, bits: Bits, es: seq<Event>, n: nat, k: Key)
    requires n <= |es|
  {
    k in Run(base, bits, es[..n]).store.peers
  }

  function AccountAfter(base: Addr, bits: Bits, es: seq<Event>, n: nat, k: Key): Account
    requires n <= |es| && EnrolledAfter(base, bits, es, n, k)
  {
    Run(base, bits, es[..n]).store.peers[k].account
  }

  /** The key is enrolled after each of the first `i` to `j` events. */
  predicate Stays(base: Addr, bits: Bits, es: seq<Event>, i: nat, j: nat, k: Key)
    requires i <= j <= |es|
    decreases j
  {
    EnrolledAfter(base, bits, es, j, k) && (i < j ==> Stays(base, bits, es, i, j - 1, k))
  }

  lemma AccountStep(base: Addr, bits: Bits, es: seq<Event>, n: nat, k: Key)
    requires n < |es| && EnrolledAfter(base, bits, es, n, k) && EnrolledAfter(base, bits, es, n + 1, k)
    ensures AccountAfter(base, bits, es, n + 1, k) == AccountAfter(base, bits, es, n, k)
  {
    assert es[..n + 1][..n] == es[..n];
    StepKeepsAccount(Run(base, bits, es[..n]), es[n], k);
  }

  /** As long as a key stays enrolled it stays in its account. */
  lemma {:induction false} AccountConstant(base: Addr, bits: Bits, es: seq<Event>, i: nat, j: nat, k: Key)
    requires i <= j <= |es| && Stays(base, bits, es, i, j, k)
    ensures EnrolledAfter(base, bits, es, i, k)
    ensures AccountAfter(base, bits, es, j, k) == AccountAfter(base, bits, es, i, k)
    decreases j
  {
    if i < j {
      AccountConstant(base, bits, es, i, j - 1, k);
      AccountStep(base, bits, es, j - 1, k);
    }
  }

  /** Logging in again keeps the identifier, the address, the account, what operators
      manage and the enrollment time, and leaves every other peer alone. What the device
      reports and the time it was seen are replaced. The exit-node choice is lost, and so
      is the country until it is looked up again. */
  lemma Reenrollment(s: Store, req: Request, now: int, other: Key)
    requires PeersOk(s) && req.key in s.peers && Login(s, req, now).1.Admitted?
    ensures var p, t := s.peers[req.key], Login(s, req, now).0;
      && t.peers[req.key] == p.(exitNode := "",
           device := FirstSeen(req.meta, req.publicIP, now).(createdAt := p.device.createdAt))
      && t.pool == s.pool && Some(Login(s, req, now).1.ip) == p.ip
      && (other in s.peers && other != req.key ==> Find(t.peers, other) == Find(s.peers, other))
  {
    assert PeerOk(s, req.key);
  }

  /** A refused edit leaves the store as it was exactly if it is refused before the
      groups are assigned, or assigns the groups the peer already has. */
  lemma RefusedEditUnchangedIff(s: Store, account: Account, key: Key, groups: seq<string>, name: Option<string>, dnsName: string)
    requires Update(s, account, key, groups, name, dnsName).1 != Done
    ensures Update(s, account, key, groups, name, dnsName).0 == s
      <==> Access(s, account, key) != Done || !ValidGroups(groups) || WithDefault(groups) == s.peers[key].groups
  {
  }

  /** Such an edit can be made: a device enrolls, and an edit with new groups and an empty
      name is refused, yet the groups it asked for are stored. */
  lemma {:induction false} RefusedEditChangesGroups(
    base: Addr, bits: Bits, sk: SetupKey, req: Request, now: int, groups: seq<string>, dnsName: string)
    requires IsBlock(base, bits) && bits <= 30 && sk.used == 0 && now <= sk.expires && |req.secret| > 0 && |req.key| > 0
    requires ValidGroups(groups) && WithDefault(groups) != EnrollGroups(sk.autoGroups)
    ensures var before := Run(base, bits, [CreateKey(req.secret, sk), Enroll(req, now)]);
      var e := Edit(sk.account, req.key, groups, Some(""), dnsName);
      && Update(before.store, sk.account, req.key, groups, Some(""), dnsName).1 == BadRequest
      && req.key in before.store.peers && before.store.peers[req.key].groups == EnrollGroups(sk.autoGroups)
      && req.key in Step(before, e).store.peers && Step(before, e).store.peers[req.key].groups == WithDefault(groups)
  {
    TwoSteps(base, bits, CreateKey(req.secret, sk), Enroll(req, now));
    FirstEnrollment(base, bits, sk, req, now);
  }

  lemma {:induction false} TwoSteps(base: Addr, bits: Bits, d: Event, e: Event)
    ensures Run(base, bits, [d, e]) == Step(Step(Run(base, bits, []), d), e)
  {
    assert [d, e][..|[d, e]| - 1] == [d];
    assert [d][..|[d]| - 1] == [];
  }

  lemma {:induction false} FirstEnrollment(base: Addr, bits: Bits, sk: SetupKey, req: Request, now: int)
    requires IsBlock(base, bits) && bits <= 30 && sk.used == 0 && now <= sk.expires && |req.secret| > 0 && |req.key| > 0
    ensures var s := Step(Step(Run(base, bits, []), CreateKey(req.secret, sk)), Enroll(req, now)).store;
      && req.key in s.peers && s.peers[req.key].account == sk.account
      && s.peers[req.key].groups == EnrollGroups(sk.autoGroups)
  {
    NewSound(base, bits);
    var s := Step(Run(base, bits, []), CreateKey(req.secret, sk)).store;
    assert s == Store(map[req.secret := sk], map[], New(base, bits));
    assert Login(s, req, now).1.Admitted?;
  }

  // ---- Setup keys ----------------------------------------------------------------

  /** The ledger entry of a stored setup key. */
  predicate KeyOk(s: State, secret: string)
    requires secret in s.store.setupKeys
  {
    var sk := s.store.setupKeys[secret];
    sk.id in s.ledger && s.ledger[sk.id] == Usage(sk.ephemeral, sk.used)
  }

  predicate KeysOk(s: State) {
    UniqueIds(s.store.setupKeys) && forall a :: a in s.store.setupKeys ==> KeyOk(s, a)
  }

  predicate LedgerOk(ledger: map<string, Usage>) {
    forall id :: id in ledger && ledger[id].ephemeral ==> ledger[id].logins <= 1
  }

  lemma EnrollKeepsKeys(s: State, req: Request, now: int)
    requires KeysOk(s) && LedgerOk(s.ledger)
    ensures var t := Step(s, Enroll(req, now)); KeysOk(t) && LedgerOk(t.ledger)
  {
  }

  lemma OtherKeepsKeys(s: State, t: State)
    requires KeysOk(s) && t.ledger == s.ledger
    requires forall a :: a in t.store.setupKeys ==> a in s.store.setupKeys && t.store.setupKeys[a] == s.store.setupKeys[a]
    ensures KeysOk(t)
  {
  }

  lemma CreateKeepsKeys(s: State, secret: string, sk: SetupKey)
    requires KeysOk(s) && LedgerOk(s.ledger)
    ensures var t := Step(s, CreateKey(secret, sk)); KeysOk(t) && LedgerOk(t.ledger)
  {
  }

  lemma QuietOnKeys(s: State, e: Event)
    requires !e.Enroll? && !e.CreateKey?
    ensures var t := Step(s, e);
      && t.ledger == s.ledger
      && forall a :: a in t.store.setupKeys ==> a in s.store.setupKeys && t.store.setupKeys[a] == s.store.setupKeys[a]
  {
  }

  lemma {:induction false} RunKeepsKeys(base: Addr, bits: Bits, es: seq<Event>)
    ensures var s := Run(base, bits, es); KeysOk(s) && LedgerOk(s.ledger)
  {
    if es != [] {
      var s, e := Run(base, bits, es[..|es| - 1]), es[|es| - 1];
      RunKeepsKeys(base, bits, es[..|es| - 1]);
      match e
      case Enroll(req, now) => EnrollKeepsKeys(s, req, now);
      case CreateKey(secret, sk) => CreateKeepsKeys(s, secret, sk);
      case _ => QuietOnKeys(s, e); OtherKeepsKeys(s, Step(s, e));
    }
  }

  /** The usage count of a stored key is the number of logins it completed, and an
      ephemeral key, deleted since or not, completes at most one. */
  lemma {:induction false} EphemeralOnce(base: Addr, bits: Bits, es: seq<Event>, id: string, secret: string)
    requires id in Run(base, bits, es).ledger
    ensures var s := Run(base, bits, es);
      && (s.ledger[id].ephemeral ==> s.ledger[id].logins <= 1)
      && (secret in s.store.setupKeys && s.store.setupKeys[secret].id == id
          ==> s.store.setupKeys[secret].used == s.ledger[id].logins)
  {
    RunKeepsKeys(base, bits, es);
    var s := Run(base, bits, es);
    if secret in s.store.setupKeys && s.store.setupKeys[secret].id == id {
      assert KeyOk(s, secret);
    }
  }

  // ---- Exit nodes ----------------------------------------------------------------

  predicate DistinctKeys(peers: seq<Peer>) {
    forall i, j :: 0 <= i < j < |peers| ==> peers[i].key != peers[j].key
  }

  /** `self` has chosen another listed peer that offers its default route. */
  predicate Chosen(peers: seq<Peer>, self: Key, gateway: Key) {
    && |gateway| > 0 && gateway != self
    && (exists p :: p in peers && p.key == self && p.exitNode == gateway)
    && (exists g :: g in peers && g.key == gateway && DEFAULT_ROUTE in g.routes)
  }

  method ResolveExitNode(peers: seq<Peer>, self: Key) returns (r: Key)
    requires DistinctKeys(peers)
    ensures |r| > 0 ==> Chosen(peers, self, r)
    ensures |r| == 0 ==> forall g :: !Chosen(peers, self, g)
  {
    var chosen := "";
    var i := 0;
    while i < |peers|
      invariant 0 <= i <= |peers| && |chosen| == 0
      invariant forall n :: 0 <= n < i ==> peers[n].key != self
    {
      if peers[i].key == self {
        chosen := peers[i].exitNode;
        break;
      }
      i := i + 1;
    }
    assert forall p :: p in peers && p.key == self ==> p.exitNode == chosen;
    if |chosen| == 0 || chosen == self {
      return "";
    }
    for j := 0 to |peers|
      invariant forall n :: 0 <= n < j ==> peers[n].key != chosen
    {
      if peers[j].key == chosen {
        assert forall g :: g in peers && g.key == chosen ==> g == peers[j];
        for n := 0 to |peers[j].routes|
          invariant DEFAULT_ROUTE !in peers[j].routes[..n]
        {
          if peers[j].routes[n] == DEFAULT_ROUTE {
            return chosen;
          }
        }
        return "";
      }
    }
    return "";
  }

  /** A choice the handler accepts resolves to itself on any listing of the account. */
  lemma AcceptedChoiceResolves(s: Store, account: Account, key: Key, gateway: Key, listing: seq<Peer>)
    requires PeersOk(s) && |gateway| > 0 && SetExitNode(s, account, key, gateway).1 == Done
    requires var t := SetExitNode(s, account, key, gateway).0;
      forall p :: p in listing <==> exists k :: k in t.peers && t.peers[k] == p && p.account == account
    ensures Chosen(listing, key, gateway)
  {
    var t := SetExitNode(s, account, key, gateway).0;
    assert PeerOk(s, key) && PeerOk(s, gateway);
    assert t.peers[key] in listing;
    assert t.peers[gateway] in listing;
  }
}
