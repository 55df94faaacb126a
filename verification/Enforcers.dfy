/** The two other enforcers of the compiled rules: the filter on raw IPv4 bytes and
    the iptables chain. Each is shown to decide every packet as the netstack's
    first-match check does. */
module Enforcers {
  import opened Domain
  import opened Policy

  // ---- Raw packets (section 3.1 of RFC 791) --------------------------------------

  type Byte = b: nat | b < 256

  function BigEndian32(a: Addr): seq<Byte> {
    [a / 0x100_0000, a / 0x1_0000 % 0x100, a / 0x100 % 0x100, a % 0x100]
  }

  function Read16(b: seq<Byte>, at: nat): (n: nat)
    requires at + 2 <= |b|
    ensures n < 0x1_0000
  {
    b[at] as int * 0x100 + b[at + 1]
  }

  function Read32(b: seq<Byte>, at: nat): Addr
    requires at + 4 <= |b|
  {
    b[at] as int * 0x100_0000 + b[at + 1] as int * 0x1_0000 + b[at + 2] as int * 0x100 + b[at + 3]
  }

  /** An IPv4 datagram by its fields. `fixed` is octets 1 to 8 of the header and `sum`
      its checksum; `body` follows the options. */
  datatype Datagram = Datagram(
    fixed: seq<Byte>,
    proto: Byte,
    sum: seq<Byte>,
    src: Addr,
    dst: Addr,
    options: seq<Byte>,
    body: seq<Byte>)
  {
    predicate Valid() {
      |fixed| == 8 && |sum| == 2 && |options| % 4 == 0 && |options| <= 40
    }

    /** A TCP, UDP or ICMP datagram long enough to hold its ports. */
    predicate Complete() {
      Valid() && (proto == 1 || ((proto == 6 || proto == 17) && |body| >= 4))
    }

    function Encode(): seq<Byte>
      requires Valid()
    {
      [0x40 + 5 + |options| / 4] + fixed + [proto] + sum + BigEndian32(src) + BigEndian32(dst) + options + body
    }

    /** What the policy sees of the datagram; port 0 stands for a port it does not read. */
    function Packet(): Packet {
      Policy.Packet(src, dst, ProtoName(proto), if (proto == 6 || proto == 17) && |body| >= 4 then Read16(body, 2) else 0)
    }
  }

  function ProtoName(p: Byte): string {
    if p == 6 then "tcp" else if p == 17 then "udp" else if p == 1 then "icmp" else ""
  }

  /** aclFilterAllowsFor: anything but a whole IPv4 header passes, transit passes when
      the host's own addresses are known, the rest is decided by the rules. */
  function FilterAllows(pkt: seq<Byte>, rules: seq<Rule>, locals: set<Addr>): bool {
    if |pkt| < 20 || pkt[0] / 16 != 4 then true
    else
      var ihl := pkt[0] % 16 * 4;
      if ihl < 20 || |pkt| < ihl then true
      else
        var src, dst := Read32(pkt, 12), Read32(pkt, 16);
        if locals != {} && dst !in locals then true
        else
          var proto := ProtoName(pkt[9]);
          var dport := if (proto == "tcp" || proto == "udp") && |pkt| >= ihl + 4 then Read16(pkt, ihl + 2) else 0;
          Verdict(rules, Packet(src, dst, proto, dport))
  }

  lemma Read32OfBigEndian(a: Addr)
    ensures Read32(BigEndian32(a), 0) == a
  {
    var x, y := a / 0x100, a / 0x1_0000;
    assert x / 0x100 == y && y / 0x100 == a / 0x100_0000;
  }

  lemma EncodedFields(d: Datagram)
    requires d.Valid()
    ensures var b := d.Encode();
      && |b| == 20 + |d.options| + |d.body| && b[0] == 0x45 + |d.options| / 4 && b[9] == d.proto
      && b[12..16] == BigEndian32(d.src) && b[16..20] == BigEndian32(d.dst) && b[20 + |d.options|..] == d.body
  {
  }

  lemma ReadSlice(b: seq<Byte>, at: nat, part: seq<Byte>)
    requires at + 4 <= |b| && b[at..at + 4] == part
    ensures Read32(b, at) == Read32(part, 0)
  {
  }

  /** On every datagram addressed to this host, and on every one when the host's addresses
      are unknown, the byte filter decides by the rules; transit passes. */
  lemma {:induction false} FilterDecides(d: Datagram, rules: seq<Rule>, locals: set<Addr>)
    requires d.Valid()
    ensures FilterAllows(d.Encode(), rules, locals)
       == ((locals != {} && d.dst !in locals) || Verdict(rules, d.Packet()))
  {
    var b := d.Encode();
    EncodedFields(d);
    ReadSlice(b, 12, BigEndian32(d.src));
    ReadSlice(b, 16, BigEndian32(d.dst));
    Read32OfBigEndian(d.src);
    Read32OfBigEndian(d.dst);
    var ihl := 20 + |d.options|;
    assert b[0] % 16 * 4 == ihl && b[0] / 16 == 4;
    if |d.body| >= 4 {
      assert b[ihl + 2] == b[ihl..][2] && b[ihl + 3] == b[ihl..][3];
    }
  }

  /** Bytes that form a whole IPv4 header. */
  predicate WholeHeader(b: seq<Byte>) {
    |b| >= 20 && b[0] / 16 == 4 && b[0] % 16 >= 5 && |b| >= b[0] % 16 * 4
  }

  function Decode(b: seq<Byte>): Datagram
    requires WholeHeader(b)
  {
    var ihl := b[0] % 16 * 4;
    Datagram(b[1..9], b[9], b[10..12], Read32(b, 12), Read32(b, 16), b[20..ihl], b[ihl..])
  }

  lemma BigEndianOfRead(b: seq<Byte>, at: nat)
    requires at + 4 <= |b|
    ensures BigEndian32(Read32(b, at)) == b[at..at + 4]
  {
    var a := Read32(b, at);
    assert a / 0x100 == b[at] as int * 0x1_0000 + b[at + 1] as int * 0x100 + b[at + 2];
    assert a / 0x1_0000 == b[at] as int * 0x100 + b[at + 1];
    assert a / 0x100_0000 == b[at];
  }

  /** The datagrams cover every packet the filter does not wave through unread. */
  lemma DecodeCovers(b: seq<Byte>)
    requires WholeHeader(b)
    ensures Decode(b).Valid() && Decode(b).Encode() == b
  {
    BigEndianOfRead(b, 12);
    BigEndianOfRead(b, 16);
    HeaderParts(b, b[0] % 16 * 4);
  }

  /** On all bytes: what is not a whole IPv4 header passes, transit passes, and the rest is
      decided by the rules on what the header says. */
  lemma {:induction false} FilterDecidesBytes(b: seq<Byte>, rules: seq<Rule>, locals: set<Addr>)
    ensures FilterAllows(b, rules, locals)
      == (!WholeHeader(b) || (locals != {} && Decode(b).dst !in locals) || Verdict(rules, Decode(b).Packet()))
  {
    if WholeHeader(b) {
      DecodeCovers(b);
      FilterDecides(Decode(b), rules, locals);
    }
  }

  lemma HeaderParts(b: seq<Byte>, ihl: nat)
    requires 20 <= ihl <= |b|
    ensures b == [b[0]] + b[1..9] + [b[9]] + b[10..12] + b[12..16] + b[16..20] + b[20..ihl] + b[ihl..]
  {
    assert b == b[..20] + b[20..ihl] + b[ihl..];
  }

  // ---- The iptables chain --------------------------------------------------------

  const CHAIN := "BLINEX-ACL"

  /** One command-line argument: a word, an address text or a number. */
  datatype Arg = Word(text: string) | Net(field: Field) | Number(n: int)

  datatype Target = Accept | Drop

  datatype Entry = Entry(
    iface: Option<string>,
    src: Field,
    dst: Field,
    proto: Option<string>,
    dport: Option<int>,
    established: bool,
    target: Option<Target>)

  const EMPTY := Entry(None, Any, Any, None, None, false, None)

  /** How iptables reads one option with its value; None is a refused command. */
  function Extend(e: Entry, flag: Arg, value: Arg): Option<Entry> {
    match (flag, value)
    case (Word("-A"), Word(c)) => if c == CHAIN then Some(e) else None
    case (Word("-i"), Word(i)) => Some(e.(iface := Some(i)))
    case (Word("-s"), Net(f)) => if f.Host? || f.Prefix? then Some(e.(src := f)) else None
    case (Word("-d"), Net(f)) => if f.Host? || f.Prefix? then Some(e.(dst := f)) else None
    case (Word("-p"), Word(p)) => if p == "tcp" || p == "udp" || p == "icmp" then Some(e.(proto := Some(p))) else None
    case (Word("--dport"), Number(n)) =>
      if 0 <= n < 0x1_0000 && (e.proto == Some("tcp") || e.proto == Some("udp")) then Some(e.(dport := Some(n))) else None
    case (Word("-m"), Word(m)) => if m == "conntrack" then Some(e) else None
    case (Word("--ctstate"), Word(c)) => if c == "ESTABLISHED,RELATED" then Some(e.(established := true)) else None
    case (Word("-j"), Word(t)) =>
      if t == "ACCEPT" then Some(e.(target := Some(Accept)))
      else if t == "DROP" then Some(e.(target := Some(Drop)))
      else None
    case _ => None
  }

  /** The entry a whole argument list installs. */
  function Parse(args: seq<Arg>): Option<Entry> {
    if args == [] then Some(EMPTY)
    else if |args| == 1 then None
    else
      var e := Parse(args[..|args| - 2]);
      if e.None? then None else Extend(e.value, args[|args| - 2], args[|args| - 1])
  }

  lemma {:induction false} ParseAppend(args: seq<Arg>, flag: Arg, value: Arg)
    ensures Parse(args + [flag, value]) ==
            if Parse(args).None? then None else Extend(Parse(args).value, flag, value)
  {
  }

  predicate EntryMatches(e: Entry, iface: string, k: Packet, established: bool) {
    && (e.iface.None? || e.iface.value == iface)
    && HostMatch(e.src, k.src) && HostMatch(e.dst, k.dst)
    && (e.proto.None? || e.proto.value == k.proto)
    && (e.dport.None? || e.dport.value == k.dport)
    && (e.established ==> established)
  }

  /** First match; a packet that matches nothing returns to the caller and is accepted. */
  function ChainAccepts(chain: seq<Entry>, iface: string, k: Packet, established: bool): bool {
    if chain == [] then true
    else if chain[0].target.Some? && EntryMatches(chain[0], iface, k, established) then chain[0].target.value.Accept?
    else ChainAccepts(chain[1..], iface, k, established)
  }

  function EntryProto(r: Rule): Option<string> {
    var p := Lower(r.protocol);
    if p != "" && p != "all" then Some(p) else None
  }

  function EntryPort(r: Rule): Option<int> {
    var p := Lower(r.protocol);
    if r.port > 0 && (p == "tcp" || p == "udp") then Some(r.port) else None
  }

  /** What the entry of a rule has to say: exactly the rule's own fields. */
  function EntryOf(r: Rule, iface: string): Entry {
    Entry(Some(iface), r.src, r.dst, EntryProto(r), EntryPort(r), false, Some(if r.action == "deny" then Drop else Accept))
  }

  predicate KnownService(r: Rule) {
    && Lower(r.protocol) in {"", "all", "tcp", "udp", "icmp"}
    && (Lower(r.protocol) in {"tcp", "udp"} ==> r.port < 0x1_0000)
  }

  /** iptables can express the rule: an address where one is given, a known protocol. */
  predicate Expressible(r: Rule) {
    !r.src.Group? && !r.src.Unusable? && !r.dst.Group? && !r.dst.Unusable? && KnownService(r)
  }

  method AddressArgs(r: Rule, iface: string) returns (args: seq<Arg>)
    ensures Parse(args) ==
      if r.src.Group? || r.src.Unusable? || r.dst.Group? || r.dst.Unusable? then None
      else Some(EMPTY.(iface := Some(iface), src := r.src, dst := r.dst))
  {
    args := [Word("-A"), Word(CHAIN), Word("-i"), Word(iface)];
    ParsePairs(Word("-A"), Word(CHAIN), Word("-i"), Word(iface));
    if r.src != Any {
      ParseAppend(args, Word("-s"), Net(r.src));
      args := args + [Word("-s"), Net(r.src)];
    }
    if r.dst != Any {
      ParseAppend(args, Word("-d"), Net(r.dst));
      args := args + [Word("-d"), Net(r.dst)];
    }
  }

  method ServiceArgs(before: seq<Arg>, r: Rule) returns (args: seq<Arg>)
    requires Parse(before).Some? ==> Parse(before).value.proto.None? && Parse(before).value.dport.None?
    ensures Parse(args) ==
      if Parse(before).None? || !KnownService(r) then None
      else Some(Parse(before).value.(proto := EntryProto(r), dport := EntryPort(r)))
  {
    args := before;
    var proto := Lower(r.protocol);
    if proto != "" && proto != "all" {
      ParseAppend(args, Word("-p"), Word(proto));
      args := args + [Word("-p"), Word(proto)];
      if r.port > 0 && (proto == "tcp" || proto == "udp") {
        ParseAppend(args, Word("--dport"), Number(r.port));
        args := args + [Word("--dport"), Number(r.port)];
      }
    }
  }

  /** What iptables reads back from the arguments is the rule, or a refusal when it
      cannot express the rule. */
  method BuildIPTablesArgs(r: Rule, iface: string) returns (args: seq<Arg>)
    ensures Parse(args) == if Expressible(r) then Some(EntryOf(r, iface)) else None
  {
    args := AddressArgs(r, iface);
    args := ServiceArgs(args, r);
    var target := "ACCEPT";
    if r.action == "deny" {
      target := "DROP";
    }
    ParseAppend(args, Word("-j"), Word(target));
    args := args + [Word("-j"), Word(target)];
  }

  const ESTABLISHED_ENTRY := EMPTY.(established := true, target := Some(Accept))
  const DROP_ENTRY := EMPTY.(target := Some(Drop))

  /** The entries the enabled rules install; what iptables refuses is skipped. */
  function Installed(rules: seq<Rule>, iface: string): seq<Entry> {
    if rules == [] then []
    else
      var r := rules[|rules| - 1];
      Installed(rules[..|rules| - 1], iface) + if r.enabled && Expressible(r) then [EntryOf(r, iface)] else []
  }

  class IPTables {
    var chain: seq<Entry>

    constructor ()
      ensures chain == []
    {
      chain := [];
    }

    method Flush()
      modifies this
      ensures chain == []
    {
      chain := [];
    }

    method Append(args: seq<Arg>) returns (ok: bool)
      modifies this
      ensures ok == Parse(args).Some?
      ensures chain == old(chain) + if ok then [Parse(args).value] else []
    {
      var e := Parse(args);
      ok := e.Some?;
      if ok {
        chain := chain + [e.value];
      }
    }

    method AppendReplies()
      modifies this
      ensures chain == old(chain) + [ESTABLISHED_ENTRY]
    {
      var reply := [Word("-A"), Word(CHAIN), Word("-m"), Word("conntrack")];
      var state := [Word("--ctstate"), Word("ESTABLISHED,RELATED")];
      ParsePairs(reply[0], reply[1], reply[2], reply[3]);
      ParseAppend(reply, state[0], state[1]);
      ParseAppend(reply + state, Word("-j"), Word("ACCEPT"));
      var _ := Append(reply + state + [Word("-j"), Word("ACCEPT")]);
    }

    method AppendDrop()
      modifies this
      ensures chain == old(chain) + [DROP_ENTRY]
    {
      ParsePairs(Word("-A"), Word(CHAIN), Word("-j"), Word("DROP"));
      var _ := Append([Word("-A"), Word(CHAIN), Word("-j"), Word("DROP")]);
    }

    /** Afterwards the chain holds the reply accept, the rules in order, the final drop,
        and nothing of what was there before. */
    method ApplyRules(rules: seq<Rule>, iface: string)
      modifies this
      ensures chain == [ESTABLISHED_ENTRY] + Installed(rules, iface) + [DROP_ENTRY]
    {
      Flush();
      AppendReplies();
      for i := 0 to |rules|
        invariant chain == [ESTABLISHED_ENTRY] + Installed(rules[..i], iface)
      {
        assert rules[..i + 1][..i] == rules[..i];
        if rules[i].enabled {
          var args := BuildIPTablesArgs(rules[i], iface);
          var _ := Append(args);
        }
      }
      assert rules[..|rules|] == rules;
      AppendDrop();
    }
  }

  lemma ParsePairs(a: Arg, b: Arg, c: Arg, d: Arg)
    ensures Parse([a, b, c, d]) ==
      var e := Extend(EMPTY, a, b);
      if e.None? then None else Extend(e.value, c, d)
  {
    ParseAppend([], a, b);
    ParseAppend([a, b], c, d);
    assert [] + [a, b] == [a, b] && [a, b] + [c, d] == [a, b, c, d];
  }

  // ---- Agreement -----------------------------------------------------------------

  /** Passed validateRuleFields, with group references already expanded. */
  predicate FieldsValid(r: Rule) {
    && !r.src.Group? && !r.dst.Group?
    && Lower(r.protocol) in {"tcp", "udp", "icmp", "all"} && 0 <= r.port < 0x1_0000
  }

  predicate ActionValid(r: Rule) {
    r.action == "allow" || r.action == "deny"
  }

  /** A packet as the enforcers see it: a protocol they know, a port in range. */
  predicate Known(k: Packet) {
    (k.proto == "tcp" || k.proto == "udp" || k.proto == "icmp") && k.dport < 0x1_0000
  }

  lemma EntryMatchesRule(r: Rule, iface: string, k: Packet)
    requires FieldsValid(r) && Known(k)
    ensures Matches(r, k) <==> r.enabled && Expressible(r) && EntryMatches(EntryOf(r, iface), iface, k, false)
  {
  }

  lemma {:induction false} ChainConcat(a: seq<Entry>, b: seq<Entry>, iface: string, k: Packet)
    ensures ChainAccepts(a + b, iface, k, false) ==
      if exists i :: 0 <= i < |a| && a[i].target.Some? && EntryMatches(a[i], iface, k, false)
      then ChainAccepts(a, iface, k, false) else ChainAccepts(b, iface, k, false)
  {
    if a == [] {
      assert a + b == b;
    } else {
      ChainConcat(a[1..], b, iface, k);
      assert (a + b)[1..] == a[1..] + b;
      assert forall i :: 0 <= i < |a[1..]| ==> a[1..][i] == a[i + 1];
    }
  }

  predicate Caught(chain: seq<Entry>, iface: string, k: Packet) {
    exists i :: 0 <= i < |chain| && chain[i].target.Some? && EntryMatches(chain[i], iface, k, false)
  }

  /** The action of the first matching rule. */
  function Deciding(rules: seq<Rule>, k: Packet): Option<Rule> {
    if rules == [] then None
    else
      var d := Deciding(rules[..|rules| - 1], k);
      if d.None? && Matches(rules[|rules| - 1], k) then Some(rules[|rules| - 1]) else d
  }

  lemma {:induction false} VerdictByDeciding(rules: seq<Rule>, k: Packet)
    ensures Verdict(rules, k) == (Deciding(rules, k).Some? && Deciding(rules, k).value.action == "allow")
    ensures Hits(rules, k) <==> Deciding(rules, k).Some?
  {
    if rules != [] {
      var front, last := rules[..|rules| - 1], rules[|rules| - 1];
      VerdictByDeciding(front, k);
      VerdictConcat(front, [last], k);
      HitsConcat(front, [last], k);
      assert rules == front + [last];
      assert Hits([last], k) <==> Matches(last, k);
    }
  }

  lemma {:induction false} InstalledDecides(rules: seq<Rule>, iface: string, k: Packet)
    requires Known(k) && forall i :: 0 <= i < |rules| ==> FieldsValid(rules[i])
    ensures Caught(Installed(rules, iface), iface, k) <==> Deciding(rules, k).Some?
    ensures Deciding(rules, k).Some? ==>
      (ChainAccepts(Installed(rules, iface), iface, k, false) <==> Deciding(rules, k).value.action != "deny")
  {
    if rules != [] {
      var front, r := rules[..|rules| - 1], rules[|rules| - 1];
      InstalledDecides(front, iface, k);
      EntryMatchesRule(r, iface, k);
      var a := Installed(front, iface);
      var b := if r.enabled && Expressible(r) then [EntryOf(r, iface)] else [];
      ChainConcat(a, b, iface, k);
      CaughtConcat(a, b, iface, k);
      assert b != [] ==> b[0] == EntryOf(r, iface);
    }
  }

  lemma CaughtConcat(a: seq<Entry>, b: seq<Entry>, iface: string, k: Packet)
    ensures Caught(a + b, iface, k) <==> Caught(a, iface, k) || Caught(b, iface, k)
  {
    assert forall i :: 0 <= i < |a| ==> (a + b)[i] == a[i];
    assert forall i :: 0 <= i < |b| ==> (a + b)[|a| + i] == b[i];
  }

  /** The chain and the netstack check part ways exactly on an action that is neither
      word: iptables accepts it, the check denies it. */
  lemma {:induction false} ChainAgreesIff(rules: seq<Rule>, iface: string, k: Packet)
    requires Known(k) && forall i :: 0 <= i < |rules| ==> FieldsValid(rules[i])
    ensures (ChainAccepts([ESTABLISHED_ENTRY] + Installed(rules, iface) + [DROP_ENTRY], iface, k, false) == Verdict(rules, k))
       <==> (Deciding(rules, k).Some? ==> ActionValid(Deciding(rules, k).value))
  {
    VerdictByDeciding(rules, k);
    InstalledDecides(rules, iface, k);
    var mid := Installed(rules, iface);
    ChainConcat([ESTABLISHED_ENTRY], mid + [DROP_ENTRY], iface, k);
    ChainConcat(mid, [DROP_ENTRY], iface, k);
    assert [ESTABLISHED_ENTRY] + mid + [DROP_ENTRY] == [ESTABLISHED_ENTRY] + (mid + [DROP_ENTRY]);
    assert !EntryMatches(ESTABLISHED_ENTRY, iface, k, false);
    assert EntryMatches(DROP_ENTRY, iface, k, false);
    assert !ChainAccepts([DROP_ENTRY], iface, k, false);
  }

  lemma {:induction false} DecidingIsMember(rules: seq<Rule>, k: Packet)
    ensures Deciding(rules, k).Some? ==> Deciding(rules, k).value in rules
  {
    if rules != [] {
      DecidingIsMember(rules[..|rules| - 1], k);
    }
  }

  /** The three enforcers agree on every complete datagram, for every validated list. */
  lemma {:induction false} EnforcersAgree(rules: seq<Rule>, iface: string, d: Datagram)
    requires d.Complete() && forall i :: 0 <= i < |rules| ==> FieldsValid(rules[i]) && ActionValid(rules[i])
    ensures FilterAllows(d.Encode(), rules, {}) == Verdict(rules, d.Packet())
    ensures ChainAccepts([ESTABLISHED_ENTRY] + Installed(rules, iface) + [DROP_ENTRY], iface, d.Packet(), false)
         == Verdict(rules, d.Packet())
  {
    FilterDecides(d, rules, {});
    ChainAgreesIff(rules, iface, d.Packet());
    DecidingIsMember(rules, d.Packet());
  }

  // ---- From the stored rules to the wire -----------------------------------------

  /** Passed validateRuleFields as stored, where a side may name a group. */
  predicate StoredValid(r: Rule) {
    ActionValid(r) && Lower(r.protocol) in {"tcp", "udp", "icmp", "all"} && 0 <= r.port < 0x1_0000
  }

  lemma {:induction false} CrossValid(r: Rule, ss: seq<Field>, ds: seq<Field>)
    requires StoredValid(r)
    requires forall i :: 0 <= i < |ss| ==> !ss[i].Group?
    requires forall i :: 0 <= i < |ds| ==> !ds[i].Group?
    ensures forall i :: 0 <= i < |Cross(r, ss, ds)| ==> FieldsValid(Cross(r, ss, ds)[i]) && ActionValid(Cross(r, ss, ds)[i])
  {
    if ss != [] {
      CrossValid(r, ss[..|ss| - 1], ds);
    }
  }

  lemma {:induction false} CompileValid(rules: seq<Rule>, peers: seq<Peer>)
    requires forall i :: 0 <= i < |rules| ==> StoredValid(rules[i])
    ensures forall i :: 0 <= i < |Compile(rules, peers)| ==>
      FieldsValid(Compile(rules, peers)[i]) && ActionValid(Compile(rules, peers)[i])
  {
    if rules != [] {
      var r := rules[|rules| - 1];
      CompileValid(rules[..|rules| - 1], peers);
      CrossValid(r, Side(r.src, peers), Side(r.dst, peers));
    }
  }

  /** End to end: whatever order the store yields, every enforcer lets a complete
      datagram through exactly when the governing rules of smallest priority say allow. */
  lemma {:induction false} PolicyReachesTheWire(order: seq<Rule>, peers: seq<Peer>, iface: string, d: Datagram)
    requires d.Complete() && Addressed(peers) && TiesAgree(order, d.Packet(), peers)
    requires forall i :: 0 <= i < |order| ==> StoredValid(order[i])
    ensures var rules := Compile(StableSort(order), peers);
      var allowed := exists r :: Decisive(r, order, d.Packet(), peers) && r.action == "allow";
      && Verdict(rules, d.Packet()) == allowed
      && FilterAllows(d.Encode(), rules, {}) == allowed
      && ChainAccepts([ESTABLISHED_ENTRY] + Installed(rules, iface) + [DROP_ENTRY], iface, d.Packet(), false) == allowed
  {
    var sorted := StableSort(order);
    SortKeeps(order);
    forall i | 0 <= i < |sorted|
      ensures StoredValid(sorted[i])
    {
      assert sorted[i] in multiset(sorted);
      assert sorted[i] in order;
    }
    CompileValid(sorted, peers);
    CompilerCorrect(order, peers, d.Packet());
    EnforcersAgree(Compile(sorted, peers), iface, d);
  }
}
