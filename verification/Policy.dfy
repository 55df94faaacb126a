/** The access-control compiler: the rules of an account are listed in the order the
    store's map happens to yield, sorted by priority, expanded from groups to
    addresses, and decided by first match. The reference it must agree with names
    no order at all: the matching rule of smallest priority decides. */
module Policy {
  import opened Domain

  datatype Packet = Packet(src: Addr, dst: Addr, proto: string, dport: nat)

  predicate InPrefix(a: Addr, base: Addr, bits: Bits) {
    a / Pow2(32 - bits) == base / Pow2(32 - bits)
  }

  /** aclHostMatch: a field that is not a host or a prefix matches nothing. */
  predicate HostMatch(f: Field, ip: Addr) {
    match f
    case Any => true
    case Host(a) => a == ip
    case Prefix(base, bits) => InPrefix(ip, base, bits)
    case Group(_) => false
    case Unusable => false
  }

  predicate ServiceMatch(r: Rule, proto: string, dport: nat) {
    var p := Lower(r.protocol);
    p == "" || p == "all" ||
    (p == proto && !(r.port > 0 && (p == "tcp" || p == "udp") && r.port % 0x1_0000 != dport))
  }

  /** A concrete rule, after expansion, matches the packet. */
  predicate Matches(r: Rule, k: Packet) {
    r.enabled && HostMatch(r.src, k.src) && HostMatch(r.dst, k.dst) && ServiceMatch(r, k.proto, k.dport)
  }

  predicate Hits(rules: seq<Rule>, k: Packet) {
    exists i :: 0 <= i < |rules| && Matches(rules[i], k)
  }

  predicate SomeHost(fs: seq<Field>, ip: Addr) {
    exists i :: 0 <= i < |fs| && HostMatch(fs[i], ip)
  }

  /** Index `i` holds the first rule that matches. */
  predicate FirstAt(rules: seq<Rule>, k: Packet, i: int) {
    0 <= i < |rules| && Matches(rules[i], k) && forall j :: 0 <= j < i ==> !Matches(rules[j], k)
  }

  function Verdict(rules: seq<Rule>, k: Packet): bool {
    if rules == [] then false
    else if Matches(rules[0], k) then rules[0].action == "allow"
    else Verdict(rules[1..], k)
  }

  /** The netstack router's policy state. */
  class RoutingNet {
    var aclRules: seq<Rule>

    constructor ()
      ensures aclRules == []
    {
      aclRules := [];
    }

    method SetACLRules(rules: seq<Rule>)
      modifies this
      ensures aclRules == rules
    {
      aclRules := rules;
    }

    /** First match decides, and no match denies. */
    method AclAllows(src: Addr, dst: Addr, proto: string, dport: nat) returns (ok: bool)
      ensures ok == Verdict(aclRules, Packet(src, dst, proto, dport))
    {
      var k := Packet(src, dst, proto, dport);
      var n := 0;
      while n < |aclRules|
        invariant n <= |aclRules|
        invariant Verdict(aclRules, k) == Verdict(aclRules[n..], k)
      {
        var r := aclRules[n];
        if r.enabled && HostMatch(r.src, src) && HostMatch(r.dst, dst) && ServiceMatch(r, proto, dport) {
          return r.action == "allow";
        }
        assert aclRules[n..][1..] == aclRules[n + 1..];
        n := n + 1;
      }
      return false;
    }
  }

  /** First match decides, and no match denies. */
  lemma {:induction false} VerdictByFirstMatch(rules: seq<Rule>, k: Packet)
    ensures Verdict(rules, k) <==> exists i :: FirstAt(rules, k, i) && rules[i].action == "allow"
  {
    if rules != [] && !Matches(rules[0], k) {
      var rest := rules[1..];
      VerdictByFirstMatch(rest, k);
      if i :| FirstAt(rest, k, i) && rest[i].action == "allow" {
        assert forall j :: 0 < j <= i ==> rules[j] == rest[j - 1];
        assert FirstAt(rules, k, i + 1);
      }
      if i :| FirstAt(rules, k, i) && rules[i].action == "allow" {
        assert forall j :: 0 <= j < i ==> rest[j] == rules[j + 1];
        assert FirstAt(rest, k, i - 1);
      }
    } else if rules != [] {
      assert FirstAt(rules, k, 0);
      assert forall i :: FirstAt(rules, k, i) ==> i == 0;
    }
  }

  lemma HitsConcat(a: seq<Rule>, b: seq<Rule>, k: Packet)
    ensures Hits(a + b, k) <==> Hits(a, k) || Hits(b, k)
  {
    if i :| 0 <= i < |a| && Matches(a[i], k) {
      assert (a + b)[i] == a[i];
    }
    if i :| 0 <= i < |b| && Matches(b[i], k) {
      assert (a + b)[|a| + i] == b[i];
    }
  }

  lemma {:induction false} VerdictConcat(a: seq<Rule>, b: seq<Rule>, k: Packet)
    ensures Verdict(a + b, k) == if Hits(a, k) then Verdict(a, k) else Verdict(b, k)
  {
    if a == [] {
      assert a + b == b;
    } else {
      VerdictConcat(a[1..], b, k);
      HitsConcat([a[0]], a[1..], k);
      assert (a + b)[1..] == a[1..] + b && a == [a[0]] + a[1..];
    }
  }

  lemma {:induction false} VerdictUniform(a: seq<Rule>, k: Packet, action: string)
    requires forall i :: 0 <= i < |a| ==> a[i].action == action
    ensures Verdict(a, k) == (Hits(a, k) && action == "allow")
  {
    if a != [] && !Matches(a[0], k) {
      VerdictUniform(a[1..], k, action);
      HitsConcat([a[0]], a[1..], k);
      assert a == [a[0]] + a[1..];
    }
  }

  // ---- Listing and sorting -------------------------------------------------------

  predicate Sorted(s: seq<Rule>) {
    forall i, j :: 0 <= i < j < |s| ==> s[i].priority <= s[j].priority
  }

  /** Inserts after every rule of the same or a smaller priority. */
  function Insert(s: seq<Rule>, r: Rule): seq<Rule> {
    if s == [] then [r]
    else if s[|s| - 1].priority <= r.priority then s + [r]
    else Insert(s[..|s| - 1], r) + [s[|s| - 1]]
  }

  /** What `sort.SliceStable` by priority yields. */
  function StableSort(s: seq<Rule>): seq<Rule> {
    if s == [] then [] else Insert(StableSort(s[..|s| - 1]), s[|s| - 1])
  }

  lemma {:induction false} InsertKeeps(s: seq<Rule>, r: Rule)
    ensures multiset(Insert(s, r)) == multiset(s) + multiset{r}
  {
    if s != [] {
      SnocMultiset(s);
      InsertKeeps(s[..|s| - 1], r);
    }
  }

  lemma {:induction false} InsertSorted(s: seq<Rule>, r: Rule)
    requires Sorted(s)
    ensures Sorted(Insert(s, r))
    ensures forall i :: 0 <= i < |Insert(s, r)| ==> Insert(s, r)[i] in s || Insert(s, r)[i] == r
  {
    if s != [] && s[|s| - 1].priority > r.priority {
      var front := s[..|s| - 1];
      InsertSorted(front, r);
      assert forall x :: x in front ==> x.priority <= s[|s| - 1].priority;
    }
  }

  lemma {:induction false} SortSorts(s: seq<Rule>)
    ensures Sorted(StableSort(s))
  {
    if s != [] {
      SortSorts(s[..|s| - 1]);
      InsertSorted(StableSort(s[..|s| - 1]), s[|s| - 1]);
    }
  }

  lemma {:induction false} SortKeeps(s: seq<Rule>)
    ensures multiset(StableSort(s)) == multiset(s)
  {
    if s != [] {
      var front, last := s[..|s| - 1], s[|s| - 1];
      SortKeeps(front);
      InsertKeeps(StableSort(front), last);
      SnocMultiset(s);
    }
  }

  lemma SnocMultiset<T>(s: seq<T>)
    requires s != []
    ensures multiset(s) == multiset(s[..|s| - 1]) + multiset{s[|s| - 1]}
  {
    assert s == s[..|s| - 1] + [s[|s| - 1]];
  }

  /** `order` lists the account's rules among those filed under `scope`, each once; `ids`
      are the identifiers they are filed under. */
  ghost predicate Enumerates(
    rules: map<string, Rule>, account: Account, scope: set<string>, ids: seq<string>, order: seq<Rule>)
  {
    && |ids| == |order| && (forall i, j :: 0 <= i < j < |ids| ==> ids[i] != ids[j])
    && (forall i :: 0 <= i < |ids| ==> ids[i] in rules && rules[ids[i]] == order[i])
    && (forall id :: id in ids <==> id in scope && id in rules && rules[id].account == account)
  }

  /** Lists the account's rules in some order of the map, then sorts. */
  method GetRulesByAccount(rules: map<string, Rule>, account: Account)
    returns (out: seq<Rule>, ghost ids: seq<string>, ghost order: seq<Rule>)
    ensures Enumerates(rules, account, rules.Keys, ids, order)
    ensures out == StableSort(order) && Sorted(out) && multiset(out) == multiset(order)
  {
    var found: seq<Rule> := [];
    ids := [];
    var todo := rules.Keys;
    while todo != {}
      invariant todo <= rules.Keys && Enumerates(rules, account, rules.Keys - todo, ids, found)
    {
      var id :| id in todo;
      EnumerateOne(rules, account, rules.Keys - todo, ids, found, id);
      assert rules.Keys - (todo - {id}) == rules.Keys - todo + {id};
      if rules[id].account == account {
        found := found + [rules[id]];
        ids := ids + [id];
      }
      todo := todo - {id};
    }
    assert rules.Keys - todo == rules.Keys;
    order := found;
    SortSorts(found);
    SortKeeps(found);
    out := StableSort(found);
  }

  lemma EnumerateOne(
    rules: map<string, Rule>, account: Account, scope: set<string>, ids: seq<string>, order: seq<Rule>, id: string)
    requires Enumerates(rules, account, scope, ids, order) && id in rules && id !in scope
    ensures if rules[id].account == account then Enumerates(rules, account, scope + {id}, ids + [id], order + [rules[id]])
            else Enumerates(rules, account, scope + {id}, ids, order)
  {
    assert id !in ids;
    assert forall i :: i in ids + [id] <==> i in ids || i == id;
  }

  // ---- Expansion -----------------------------------------------------------------

  function Repeat(ip: Option<Addr>, g: string, groups: seq<string>): seq<Option<Addr>> {
    if groups == [] then []
    else Repeat(ip, g, groups[..|groups| - 1]) + (if groups[|groups| - 1] == g then [ip] else [])
  }

  /** The addresses filed under group `g`, in the order of the peers. */
  function GroupIPs(peers: seq<Peer>, g: string): seq<Option<Addr>> {
    if peers == [] then []
    else GroupIPs(peers[..|peers| - 1], g) + Repeat(peers[|peers| - 1].ip, g, peers[|peers| - 1].groups)
  }

  function At(index: map<string, seq<Option<Addr>>>, g: string): seq<Option<Addr>> {
    if g in index then index[g] else []
  }

  /** `index` is `before` with one peer's address filed under the groups listed. */
  ghost predicate Filed(before: map<string, seq<Option<Addr>>>, index: map<string, seq<Option<Addr>>>,
                        ip: Option<Addr>, groups: seq<string>)
  {
    forall g :: At(index, g) == At(before, g) + Repeat(ip, g, groups)
  }

  lemma FileOne(before: map<string, seq<Option<Addr>>>, index: map<string, seq<Option<Addr>>>,
                ip: Option<Addr>, groups: seq<string>, h: string)
    requires Filed(before, index, ip, groups)
    ensures Filed(before, index[h := At(index, h) + [ip]], ip, groups + [h])
  {
    forall g
      ensures At(index[h := At(index, h) + [ip]], g) == At(before, g) + Repeat(ip, g, groups + [h])
    {
      FileOneAt(At(before, g), Repeat(ip, g, groups), index, ip, h, g);
      RepeatSnoc(ip, g, groups, h);
    }
  }

  lemma FileOneAt(before: seq<Option<Addr>>, filed: seq<Option<Addr>>, index: map<string, seq<Option<Addr>>>,
                  ip: Option<Addr>, h: string, g: string)
    requires At(index, g) == before + filed
    ensures At(index[h := At(index, h) + [ip]], g) == before + (filed + if g == h then [ip] else [])
  {
    assert before + filed + [ip] == before + (filed + [ip]);
    assert filed + [] == filed;
  }

  lemma {:induction false} RepeatSnoc(ip: Option<Addr>, g: string, groups: seq<string>, h: string)
    ensures Repeat(ip, g, groups + [h]) == Repeat(ip, g, groups) + if g == h then [ip] else []
  {
    assert (groups + [h])[..|groups|] == groups;
  }

  /** Files one peer's address under each of its groups. */
  method FilePeer(before: map<string, seq<Option<Addr>>>, p: Peer) returns (index: map<string, seq<Option<Addr>>>)
    ensures Filed(before, index, p.ip, p.groups)
  {
    index := before;
    for j := 0 to |p.groups|
      invariant Filed(before, index, p.ip, p.groups[..j])
    {
      FileOne(before, index, p.ip, p.groups[..j], p.groups[j]);
      assert p.groups[..j + 1] == p.groups[..j] + [p.groups[j]];
      index := index[p.groups[j] := At(index, p.groups[j]) + [p.ip]];
    }
    assert p.groups[..|p.groups|] == p.groups;
  }

  method GroupIndex(peers: seq<Peer>) returns (index: map<string, seq<Option<Addr>>>)
    ensures forall g :: At(index, g) == GroupIPs(peers, g)
  {
    index := map[];
    for i := 0 to |peers|
      invariant forall g :: At(index, g) == GroupIPs(peers[..i], g)
    {
      assert peers[..i + 1][..i] == peers[..i];
      index := FilePeer(index, peers[i]);
    }
    assert peers[..|peers|] == peers;
  }

  /** A stored address as rule text: a peer without one contributes "". */
  function AsField(ip: Option<Addr>): Field {
    if ip.Some? then Host(ip.value) else Any
  }

  function Side(f: Field, peers: seq<Peer>): seq<Field> {
    if f.Group? then
      var ips := GroupIPs(peers, f.name);
      seq(|ips|, i requires 0 <= i < |ips| => AsField(ips[i]))
    else [f]
  }

  function Row(r: Rule, s: Field, ds: seq<Field>): seq<Rule> {
    seq(|ds|, j requires 0 <= j < |ds| => r.(src := s, dst := ds[j]))
  }

  function Cross(r: Rule, ss: seq<Field>, ds: seq<Field>): seq<Rule> {
    if ss == [] then [] else Cross(r, ss[..|ss| - 1], ds) + Row(r, ss[|ss| - 1], ds)
  }

  function Expand(r: Rule, peers: seq<Peer>): seq<Rule> {
    Cross(r, Side(r.src, peers), Side(r.dst, peers))
  }

  function Compile(rules: seq<Rule>, peers: seq<Peer>): seq<Rule> {
    if rules == [] then [] else Compile(rules[..|rules| - 1], peers) + Expand(rules[|rules| - 1], peers)
  }

  method ExpandGroupRule(r: Rule, index: map<string, seq<Option<Addr>>>, ghost peers: seq<Peer>) returns (out: seq<Rule>)
    requires forall g :: At(index, g) == GroupIPs(peers, g)
    ensures out == Expand(r, peers)
  {
    if !r.src.Group? && !r.dst.Group? {
      assert Cross(r, [r.src], [r.dst]) == [r] by {
        assert [r.src][..0] == [] && Row(r, r.src, [r.dst]) == [r.(src := r.src, dst := r.dst)];
      }
      return [r];
    }
    var ss, ds := [r.src], [r.dst];
    if r.src.Group? {
      var ips := At(index, r.src.name);
      if |ips| == 0 {
        return [];
      }
      ss := seq(|ips|, i requires 0 <= i < |ips| => AsField(ips[i]));
    }
    if r.dst.Group? {
      var ips := At(index, r.dst.name);
      if |ips| == 0 {
        CrossNothing(r, ss);
        return [];
      }
      ds := seq(|ips|, i requires 0 <= i < |ips| => AsField(ips[i]));
    }
    assert ss == Side(r.src, peers) && ds == Side(r.dst, peers);
    out := CrossProduct(r, ss, ds);
  }

  method CrossProduct(r: Rule, ss: seq<Field>, ds: seq<Field>) returns (out: seq<Rule>)
    ensures out == Cross(r, ss, ds)
  {
    out := [];
    for i := 0 to |ss|
      invariant out == Cross(r, ss[..i], ds)
    {
      ghost var before := out;
      for j := 0 to |ds|
        invariant out == before + Row(r, ss[i], ds)[..j]
      {
        out := out + [r.(src := ss[i], dst := ds[j])];
        assert Row(r, ss[i], ds)[..j + 1] == Row(r, ss[i], ds)[..j] + [r.(src := ss[i], dst := ds[j])];
      }
      assert Row(r, ss[i], ds)[..|ds|] == Row(r, ss[i], ds);
      assert ss[..i + 1][..i] == ss[..i];
    }
    assert ss[..|ss|] == ss;
  }

  lemma {:induction false} CrossNothing(r: Rule, ss: seq<Field>)
    ensures Cross(r, ss, []) == []
  {
    if ss != [] {
      CrossNothing(r, ss[..|ss| - 1]);
    }
  }

  /** The rule part of the sync response. */
  method BuildRules(rules: seq<Rule>, peers: seq<Peer>) returns (out: seq<Rule>)
    ensures out == Compile(rules, peers)
  {
    var index := GroupIndex(peers);
    out := [];
    for i := 0 to |rules|
      invariant out == Compile(rules[..i], peers)
    {
      var expanded := ExpandGroupRule(rules[i], index, peers);
      assert rules[..i + 1][..i] == rules[..i];
      out := out + expanded;
    }
    assert rules[..|rules|] == rules;
  }

  // ---- Meaning of a group rule ---------------------------------------------------

  predicate MemberOf(peers: seq<Peer>, g: string, ip: Option<Addr>) {
    exists i :: 0 <= i < |peers| && g in peers[i].groups && peers[i].ip == ip
  }

  /** A group stands for its members' addresses. */
  predicate Means(f: Field, ip: Addr, peers: seq<Peer>) {
    if f.Group? then MemberOf(peers, f.name, Some(ip)) else HostMatch(f, ip)
  }

  predicate Governs(r: Rule, k: Packet, peers: seq<Peer>) {
    r.enabled && Means(r.src, k.src, peers) && Means(r.dst, k.dst, peers) && ServiceMatch(r, k.proto, k.dport)
  }

  predicate Addressed(peers: seq<Peer>) {
    forall i :: 0 <= i < |peers| ==> peers[i].ip.Some?
  }

  lemma {:induction false} RepeatIn(ip: Option<Addr>, g: string, groups: seq<string>)
    ensures forall x :: x in Repeat(ip, g, groups) <==> x == ip && g in groups
  {
    if groups != [] {
      RepeatIn(ip, g, groups[..|groups| - 1]);
      assert groups == groups[..|groups| - 1] + [groups[|groups| - 1]];
    }
  }

  lemma MemberOfLast(peers: seq<Peer>, g: string, ip: Option<Addr>)
    requires peers != []
    ensures var last := peers[|peers| - 1];
      MemberOf(peers, g, ip) <==> MemberOf(peers[..|peers| - 1], g, ip) || (g in last.groups && last.ip == ip)
  {
  }

  lemma {:induction false} GroupIPsIn(peers: seq<Peer>, g: string, ip: Option<Addr>)
    ensures ip in GroupIPs(peers, g) <==> MemberOf(peers, g, ip)
  {
    if peers != [] {
      var front, last := peers[..|peers| - 1], peers[|peers| - 1];
      GroupIPsIn(front, g, ip);
      RepeatIn(last.ip, g, last.groups);
      MemberOfLast(peers, g, ip);
    }
  }

  /** Some field of the side matches exactly when the side's meaning holds, or the
      group has a member without an address, whose empty text matches everyone. */
  lemma SideMatches(f: Field, ip: Addr, peers: seq<Peer>)
    ensures SomeHost(Side(f, peers), ip) <==> Means(f, ip, peers) || (f.Group? && MemberOf(peers, f.name, None))
  {
    var side := Side(f, peers);
    if f.Group? {
      var ips := GroupIPs(peers, f.name);
      GroupIPsIn(peers, f.name, Some(ip));
      GroupIPsIn(peers, f.name, None);
      assert forall i :: 0 <= i < |ips| ==> (HostMatch(side[i], ip) <==> ips[i] == Some(ip) || ips[i] == None);
    } else {
      assert side[0] == f;
    }
  }

  lemma RowMatches(r: Rule, s: Field, ds: seq<Field>, k: Packet)
    ensures Hits(Row(r, s, ds), k)
       <==> r.enabled && ServiceMatch(r, k.proto, k.dport) && HostMatch(s, k.src) && SomeHost(ds, k.dst)
  {
    var row := Row(r, s, ds);
    assert forall j :: 0 <= j < |ds| ==> (Matches(row[j], k) <==>
      r.enabled && ServiceMatch(r, k.proto, k.dport) && HostMatch(s, k.src) && HostMatch(ds[j], k.dst));
  }

  lemma {:induction false} CrossMatches(r: Rule, ss: seq<Field>, ds: seq<Field>, k: Packet)
    ensures forall i :: 0 <= i < |Cross(r, ss, ds)| ==> Cross(r, ss, ds)[i].action == r.action
    ensures Hits(Cross(r, ss, ds), k)
       <==> r.enabled && ServiceMatch(r, k.proto, k.dport) && SomeHost(ss, k.src) && SomeHost(ds, k.dst)
  {
    if ss != [] {
      var front, last := ss[..|ss| - 1], ss[|ss| - 1];
      CrossMatches(r, front, ds, k);
      HitsConcat(Cross(r, front, ds), Row(r, last, ds), k);
      RowMatches(r, last, ds, k);
      assert SomeHost(ss, k.src) <==> SomeHost(front, k.src) || HostMatch(last, k.src) by {
        assert forall i :: 0 <= i < |front| ==> front[i] == ss[i];
      }
    }
  }

  /** Expansion neither loses nor adds packets, and keeps the action. */
  lemma ExpandMeans(r: Rule, peers: seq<Peer>, k: Packet)
    requires Addressed(peers)
    ensures Hits(Expand(r, peers), k) <==> Governs(r, k, peers)
    ensures forall i :: 0 <= i < |Expand(r, peers)| ==> Expand(r, peers)[i].action == r.action
  {
    CrossMatches(r, Side(r.src, peers), Side(r.dst, peers), k);
    SideMatches(r.src, k.src, peers);
    SideMatches(r.dst, k.dst, peers);
  }

  /** Without the hypothesis on addresses the compiled rule is wider: one member of
      the source group without an address lets every source through. */
  lemma EmptyAddressWidens(r: Rule, peers: seq<Peer>, k: Packet)
    requires r.src.Group? && MemberOf(peers, r.src.name, None)
    requires r.enabled && ServiceMatch(r, k.proto, k.dport) && Means(r.dst, k.dst, peers)
    ensures Hits(Expand(r, peers), k)
  {
    CrossMatches(r, Side(r.src, peers), Side(r.dst, peers), k);
    SideMatches(r.src, k.src, peers);
    SideMatches(r.dst, k.dst, peers);
  }

  // ---- The compiler preserves meaning --------------------------------------------

  /** The first governing rule of a list. */
  function First(rules: seq<Rule>, k: Packet, peers: seq<Peer>): Option<Rule> {
    if rules == [] then None
    else
      var f := First(rules[..|rules| - 1], k, peers);
      if f.None? && Governs(rules[|rules| - 1], k, peers) then Some(rules[|rules| - 1]) else f
  }

  function Allows(winner: Option<Rule>): bool {
    winner.Some? && winner.value.action == "allow"
  }

  lemma {:induction false} CompileMeans(rules: seq<Rule>, peers: seq<Peer>, k: Packet)
    requires Addressed(peers)
    ensures Verdict(Compile(rules, peers), k) == Allows(First(rules, k, peers))
    ensures Hits(Compile(rules, peers), k) <==> First(rules, k, peers).Some?
  {
    if rules != [] {
      var front, last := rules[..|rules| - 1], rules[|rules| - 1];
      var a, b := Compile(front, peers), Expand(last, peers);
      CompileMeans(front, peers, k);
      ExpandMeans(last, peers, k);
      VerdictConcat(a, b, k);
      HitsConcat(a, b, k);
      VerdictUniform(b, k, last.action);
    }
  }

  /** The governing rule of smallest priority, the earliest of them in the list. */
  function Least(rules: seq<Rule>, k: Packet, peers: seq<Peer>): Option<Rule> {
    if rules == [] then None
    else
      var m := Least(rules[..|rules| - 1], k, peers);
      var r := rules[|rules| - 1];
      if Governs(r, k, peers) && (m.None? || r.priority < m.value.priority) then Some(r) else m
  }

  lemma {:induction false} FirstOfInsert(s: seq<Rule>, r: Rule, k: Packet, peers: seq<Peer>)
    requires Sorted(s)
    ensures var f := First(s, k, peers);
      First(Insert(s, r), k, peers) ==
        if Governs(r, k, peers) && (f.None? || r.priority < f.value.priority) then Some(r) else f
  {
    FirstIsMember(s, k, peers);
    if s == [] {
      assert [r][..0] == [];
    } else {
      var front, last := s[..|s| - 1], s[|s| - 1];
      if last.priority <= r.priority {
        assert (s + [r])[..|s|] == s;
      } else {
        FirstOfInsert(front, r, k, peers);
        var t := Insert(front, r);
        assert (t + [last])[..|t|] == t;
      }
    }
  }

  lemma {:induction false} FirstIsMember(s: seq<Rule>, k: Packet, peers: seq<Peer>)
    ensures First(s, k, peers).Some? ==> First(s, k, peers).value in s && Governs(First(s, k, peers).value, k, peers)
  {
    if s != [] {
      FirstIsMember(s[..|s| - 1], k, peers);
    }
  }

  lemma {:induction false} FirstOfSort(s: seq<Rule>, k: Packet, peers: seq<Peer>)
    ensures First(StableSort(s), k, peers) == Least(s, k, peers)
  {
    if s != [] {
      var front := s[..|s| - 1];
      FirstOfSort(front, k, peers);
      SortSorts(front);
      FirstOfInsert(StableSort(front), s[|s| - 1], k, peers);
    }
  }

  /** `r` governs the packet and no governing rule has a smaller priority. */
  predicate Decisive(r: Rule, rules: seq<Rule>, k: Packet, peers: seq<Peer>) {
    r in rules && Governs(r, k, peers)
    && forall q :: q in rules && Governs(q, k, peers) ==> r.priority <= q.priority
  }

  ghost predicate TiesAgree(rules: seq<Rule>, k: Packet, peers: seq<Peer>) {
    forall r, q :: Decisive(r, rules, k, peers) && Decisive(q, rules, k, peers)
      ==> (r.action == "allow" <==> q.action == "allow")
  }

  lemma {:induction false} LeastIsDecisive(rules: seq<Rule>, k: Packet, peers: seq<Peer>)
    ensures Least(rules, k, peers).Some? ==> Decisive(Least(rules, k, peers).value, rules, k, peers)
    ensures Least(rules, k, peers).None? ==> forall q :: q in rules ==> !Governs(q, k, peers)
  {
    if rules != [] {
      LeastIsDecisive(rules[..|rules| - 1], k, peers);
      assert forall q :: q in rules <==> q in rules[..|rules| - 1] || q == rules[|rules| - 1];
    }
  }

  /** Policy compilation preserves meaning: whatever order the map yields, a packet is
      allowed exactly when the governing rules of smallest priority allow it, provided
      they agree, and denied when nothing governs it. */
  lemma {:induction false} CompilerCorrect(order: seq<Rule>, peers: seq<Peer>, k: Packet)
    requires Addressed(peers) && TiesAgree(order, k, peers)
    ensures Verdict(Compile(StableSort(order), peers), k)
       <==> exists r :: Decisive(r, order, k, peers) && r.action == "allow"
  {
    CompileMeans(StableSort(order), peers, k);
    FirstOfSort(order, k, peers);
    LeastIsDecisive(order, k, peers);
  }

  /** A permutation of the list with `r` in front. */
  lemma {:induction false} BringToFront(s: seq<Rule>, r: Rule) returns (t: seq<Rule>)
    requires r in s
    ensures t != [] && t[0] == r && multiset(t) == multiset(s)
  {
    var i :| 0 <= i < |s| && s[i] == r;
    t := [r] + s[..i] + s[i + 1..];
    assert s == s[..i] + [r] + s[i + 1..];
  }

  lemma {:induction false} LeastOfFront(s: seq<Rule>, k: Packet, peers: seq<Peer>)
    requires s != [] && Decisive(s[0], s, k, peers)
    ensures Least(s, k, peers) == Some(s[0])
  {
    if |s| == 1 {
      assert s[..0] == [];
    } else {
      var front := s[..|s| - 1];
      assert forall q :: q in front ==> q in s;
      assert front[0] == s[0];
      LeastOfFront(front, k, peers);
      assert s[|s| - 1] in s;
    }
  }

  /** The agreement of ties is not only enough but needed: the verdict is the same for
      every order the map may yield if and only if the governing rules of smallest
      priority agree. */
  lemma {:induction false} OrderIrrelevantIffTiesAgree(order: seq<Rule>, peers: seq<Peer>, k: Packet)
    requires Addressed(peers)
    ensures TiesAgree(order, k, peers) <==>
      forall other :: multiset(other) == multiset(order)
        ==> Verdict(Compile(StableSort(other), peers), k) == Verdict(Compile(StableSort(order), peers), k)
  {
    if TiesAgree(order, k, peers) {
      forall other | multiset(other) == multiset(order)
        ensures Verdict(Compile(StableSort(other), peers), k) == Verdict(Compile(StableSort(order), peers), k)
      {
        SameDecisive(order, other, k, peers);
        CompilerCorrect(order, peers, k);
        CompilerCorrect(other, peers, k);
      }
    } else {
      var r, q :| Decisive(r, order, k, peers) && Decisive(q, order, k, peers)
        && !(r.action == "allow" <==> q.action == "allow");
      VerdictOfFront(order, r, peers, k);
      VerdictOfFront(order, q, peers, k);
    }
  }

  lemma SameDecisive(a: seq<Rule>, b: seq<Rule>, k: Packet, peers: seq<Peer>)
    requires multiset(a) == multiset(b)
    ensures forall r :: Decisive(r, a, k, peers) <==> Decisive(r, b, k, peers)
  {
    assert forall r :: r in a <==> r in multiset(a);
    assert forall r :: r in b <==> r in multiset(b);
  }

  lemma {:induction false} VerdictOfFront(order: seq<Rule>, r: Rule, peers: seq<Peer>, k: Packet)
    requires Addressed(peers) && Decisive(r, order, k, peers)
    ensures exists other :: (multiset(other) == multiset(order)
              && Verdict(Compile(StableSort(other), peers), k) == (r.action == "allow"))
  {
    var other := BringToFront(order, r);
    SameDecisive(order, other, k, peers);
    LeastOfFront(other, k, peers);
    CompileMeans(StableSort(other), peers, k);
    FirstOfSort(other, k, peers);
  }
}
