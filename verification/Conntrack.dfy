/** The table of flows this host started, and the Windows packet filter built on it:
    replies pass without a rule, everything else is decided by policy. */
module Conntrack {
  import opened Domain
  import opened Enforcers
  import Policy

  type Time = int   // nanoseconds
  type Bytes = seq<Byte>

  const CONNTRACK_TTL: Time := 120_000_000_000
  const CONNTRACK_MAX: nat := 8192

  /** One direction of a flow. For ICMP echo both ports hold the identifier. */
  datatype FlowKey = FlowKey(proto: Byte, src: Addr, dst: Addr, sport: nat, dport: nat)

  function Reverse(k: FlowKey): FlowKey {
    FlowKey(k.proto, k.dst, k.src, k.dport, k.sport)
  }

  function ParseFlowKey(pkt: Bytes): Option<FlowKey> {
    if |pkt| < 20 || pkt[0] / 16 != 4 then None
    else
      var ihl := pkt[0] % 16 * 4;
      if ihl < 20 || |pkt| < ihl then None
      else
        var src, dst := Read32(pkt, 12), Read32(pkt, 16);
        if pkt[9] == 6 || pkt[9] == 17 then
          if |pkt| < ihl + 4 then None
          else Some(FlowKey(pkt[9], src, dst, Read16(pkt, ihl), Read16(pkt, ihl + 2)))
        else if pkt[9] == 1 then
          if |pkt| < ihl + 6 || (pkt[ihl] != 8 && pkt[ihl] != 0) then None
          else Some(FlowKey(1, src, dst, Read16(pkt, ihl + 4), Read16(pkt, ihl + 4)))
        else None
  }

  /** The flow a datagram belongs to, by its fields. */
  function FlowOf(d: Datagram): Option<FlowKey> {
    if (d.proto == 6 || d.proto == 17) && |d.body| >= 4 then
      Some(FlowKey(d.proto, d.src, d.dst, Read16(d.body, 0), Read16(d.body, 2)))
    else if d.proto == 1 && |d.body| >= 6 && (d.body[0] == 8 || d.body[0] == 0) then
      Some(FlowKey(1, d.src, d.dst, Read16(d.body, 4), Read16(d.body, 4)))
    else None
  }

  lemma HeaderByte(options: nat)
    requires options % 4 == 0 && options <= 40
    ensures (0x45 + options / 4) / 16 == 4 && (0x45 + options / 4) % 16 * 4 == 20 + options
  {
  }

  lemma Read16Tail(b: Bytes, at: nat, i: nat)
    requires at + i + 2 <= |b|
    ensures Read16(b, at + i) == Read16(b[at..], i)
  {
    assert b[at..][i] == b[at + i] && b[at..][i + 1] == b[at + i + 1];
  }

  /** The addresses and the header length an encoding is read to have. */
  lemma ReadHeader(d: Datagram)
    requires d.Valid()
    ensures var b := d.Encode();
      && |b| == 20 + |d.options| + |d.body| && b[0] / 16 == 4 && b[0] % 16 * 4 == 20 + |d.options| && b[9] == d.proto
      && Read32(b, 12) == d.src && Read32(b, 16) == d.dst && b[20 + |d.options|..] == d.body
  {
    var b := d.Encode();
    EncodedFields(d);
    HeaderByte(|d.options|);
    ReadSlice(b, 12, BigEndian32(d.src));
    ReadSlice(b, 16, BigEndian32(d.dst));
    Read32OfBigEndian(d.src);
    Read32OfBigEndian(d.dst);
  }

  /** Reading the bytes recovers exactly the datagram's flow. */
  lemma ParseOfEncode(d: Datagram)
    requires d.Valid()
    ensures ParseFlowKey(d.Encode()) == FlowOf(d)
  {
    var b, ihl := d.Encode(), 20 + |d.options|;
    ReadHeader(d);
    if d.proto == 1 {
      if |d.body| >= 6 {
        Read16Tail(b, ihl, 4);
        assert b[ihl] == b[ihl..][0];
      }
    } else if |d.body| >= 4 {
      Read16Tail(b, ihl, 0);
      Read16Tail(b, ihl, 2);
    }
  }

  /** `r` answers `d`: ends swapped, ports swapped, or an echo reply with the same
      identifier. Options, checksums and the rest of the body are free. */
  predicate Answers(r: Datagram, d: Datagram) {
    && r.proto == d.proto && r.src == d.dst && r.dst == d.src
    && (if d.proto == 1 then |d.body| >= 6 && |r.body| >= 6 && d.body[0] == 8 && r.body[0] == 0 && r.body[4..6] == d.body[4..6]
        else (d.proto == 6 || d.proto == 17) && |d.body| >= 4 && |r.body| >= 4
             && r.body[0..2] == d.body[2..4] && r.body[2..4] == d.body[0..2])
  }

  lemma AnswerFlow(r: Datagram, d: Datagram)
    requires Answers(r, d)
    ensures FlowOf(d).Some? && FlowOf(r) == Some(Reverse(FlowOf(d).value))
  {
  }

  /** The reversed key of a packet is the key of every reply to it. */
  lemma ReplyHasReversedKey(r: Datagram, d: Datagram)
    requires r.Valid() && d.Valid() && Answers(r, d)
    ensures ParseFlowKey(d.Encode()).Some?
    ensures ParseFlowKey(r.Encode()) == Some(Reverse(ParseFlowKey(d.Encode()).value))
  {
    ParseOfEncode(r);
    ParseOfEncode(d);
    AnswerFlow(r, d);
  }

  // ---- The table -----------------------------------------------------------------

  type Flows = map<FlowKey, Time>
  type Flow = Option<FlowKey>   // what ParseFlowKey made of a packet

  function Observe(f: Flows, flow: Flow, now: Time): Flows {
    if flow.None? then f else (if |f| >= CONNTRACK_MAX then map[] else f)[Reverse(flow.value) := now]
  }

  predicate Admits(f: Flows, flow: Flow, now: Time) {
    flow.Some? && flow.value in f && now - f[flow.value] <= CONNTRACK_TTL
  }

  /** An inbound packet removes its entry if it is found expired. */
  function Look(f: Flows, flow: Flow, now: Time): Flows {
    if flow.Some? && flow.value in f && now - f[flow.value] > CONNTRACK_TTL then f - {flow.value} else f
  }

  class Table {
    var flows: Flows

    constructor ()
      ensures flows == map[]
    {
      flows := map[];
    }

    method ObserveOutbound(pkt: Bytes, now: Time)
      modifies this
      ensures flows == Observe(old(flows), ParseFlowKey(pkt), now)
    {
      var k := ParseFlowKey(pkt);
      if k.None? {
        return;
      }
      if |flows| >= CONNTRACK_MAX {
        flows := map[];
      }
      flows := flows[Reverse(k.value) := now];
    }

    method AllowInbound(pkt: Bytes, now: Time) returns (ok: bool)
      modifies this
      ensures ok == Admits(old(flows), ParseFlowKey(pkt), now) && flows == Look(old(flows), ParseFlowKey(pkt), now)
    {
      var k := ParseFlowKey(pkt);
      if k.None? || k.value !in flows {
        return false;
      }
      if now - flows[k.value] > CONNTRACK_TTL {
        flows := flows - {k.value};
        return false;
      }
      return true;
    }
  }

  // ---- History -------------------------------------------------------------------

  datatype Event = Out(flow: Flow, now: Time) | In(flow: Flow, now: Time)

  /** `clear` is history: the index of the event at which the table last overflowed. */
  datatype State = State(flows: Flows, clear: nat)

  function Step(s: State, e: Event, i: nat): State {
    match e
    case Out(flow, now) =>
      State(Observe(s.flows, flow, now), if flow.Some? && |s.flows| >= CONNTRACK_MAX then i else s.clear)
    case In(flow, now) => s.(flows := Look(s.flows, flow, now))
  }

  function After(es: seq<Event>): State {
    if es == [] then State(map[], 0) else Step(After(es[..|es| - 1]), es[|es| - 1], |es| - 1)
  }

  predicate Clocked(es: seq<Event>) {
    forall i, j :: 0 <= i <= j < |es| ==> es[i].now <= es[j].now
  }

  /** Event `i` sent a packet whose reply has key `k`. */
  predicate Sent(es: seq<Event>, i: int, k: FlowKey) {
    0 <= i < |es| && es[i].Out? && es[i].flow.Some? && Reverse(es[i].flow.value) == k
  }

  /** The entry is the latest send since the last clear; a missing one has expired. */
  ghost predicate Tracks(es: seq<Event>, k: FlowKey) {
    var s := After(es);
    && s.clear <= |es|
    && (k in s.flows ==> exists i :: s.clear <= i && Sent(es, i, k) && es[i].now == s.flows[k])
    && (k in s.flows ==> forall i :: s.clear <= i && Sent(es, i, k) ==> es[i].now <= s.flows[k])
    && (k !in s.flows ==> forall i :: s.clear <= i && Sent(es, i, k) ==> es[|es| - 1].now - es[i].now > CONNTRACK_TTL)
  }

  lemma OutTracks(es: seq<Event>, k: FlowKey)
    requires es != [] && es[|es| - 1].Out? && Clocked(es) && Tracks(es[..|es| - 1], k)
    ensures Tracks(es, k)
  {
  }

  lemma InTracks(es: seq<Event>, k: FlowKey)
    requires es != [] && es[|es| - 1].In? && Clocked(es) && Tracks(es[..|es| - 1], k)
    ensures Tracks(es, k)
  {
  }

  lemma {:induction false} Tracking(es: seq<Event>, k: FlowKey)
    requires Clocked(es)
    ensures Tracks(es, k)
  {
    if es != [] {
      Tracking(es[..|es| - 1], k);
      if es[|es| - 1].Out? {
        OutTracks(es, k);
      } else {
        InTracks(es, k);
      }
    }
  }

  /** A packet this host asked for: since the last overflow, and at most two minutes
      ago, it sent one whose reply has this very key. */
  ghost predicate Solicited(es: seq<Event>, flow: Flow, now: Time) {
    flow.Some? && exists i :: After(es).clear <= i && Sent(es, i, flow.value) && now - es[i].now <= CONNTRACK_TTL
  }

  /** The table refines its history: a packet is admitted exactly when it is solicited.
      What inbound packets deleted in between has no say in it. */
  lemma {:induction false} AdmitsIffSolicited(es: seq<Event>, flow: Flow, now: Time)
    requires Clocked(es) && (es != [] ==> es[|es| - 1].now <= now)
    ensures Admits(After(es).flows, flow, now) <==> Solicited(es, flow, now)
  {
    if flow.Some? {
      Tracking(es, flow.value);
    }
  }

  lemma {:induction false} TableBounded(es: seq<Event>)
    ensures |After(es).flows| <= CONNTRACK_MAX
  {
    if es != [] {
      TableBounded(es[..|es| - 1]);
      var s, e := After(es[..|es| - 1]), es[|es| - 1];
      if e.Out? && e.flow.Some? {
        var f: Flows := if |s.flows| >= CONNTRACK_MAX then map[] else s.flows;
        assert f[Reverse(e.flow.value) := e.now].Keys == f.Keys + {Reverse(e.flow.value)};
      } else if e.In? && e.flow.Some? {
        assert (s.flows - {e.flow.value}).Keys == s.flows.Keys - {e.flow.value};
      }
    }
  }

  // ---- The filter on the tunnel device -------------------------------------------

  /** A packet of a batch and the clock when the table looks at it. */
  datatype Timed = Timed(pkt: Bytes, at: Time)

  /** What one packet does to the table and to what has been delivered so far. */
  function DeliverOne(f: Flows, out: seq<Bytes>, rules: seq<Rule>, locals: set<Addr>, b: Timed): (Flows, seq<Bytes>) {
    if b.pkt == [] then (f, out)
    else
      (Look(f, ParseFlowKey(b.pkt), b.at),
       if Admits(f, ParseFlowKey(b.pkt), b.at) || FilterAllows(b.pkt, rules, locals) then out + [b.pkt] else out)
  }

  /** The packets of a batch that reach the OS, and the table afterwards. */
  function Deliver(f: Flows, rules: seq<Rule>, locals: set<Addr>, batch: seq<Timed>): (Flows, seq<Bytes>) {
    if batch == [] then (f, [])
    else
      var (g, out) := Deliver(f, rules, locals, batch[..|batch| - 1]);
      DeliverOne(g, out, rules, locals, batch[|batch| - 1])
  }

  function ObserveAll(f: Flows, batch: seq<Timed>): Flows {
    if batch == [] then f
    else
      var g, b := ObserveAll(f, batch[..|batch| - 1]), batch[|batch| - 1];
      if b.pkt == [] then g else Observe(g, ParseFlowKey(b.pkt), b.at)
  }

  class FilterTun {
    var rules: seq<Rule>
    var rulesSet: bool
    const ct: Table

    constructor ()
      ensures !rulesSet && rules == [] && fresh(ct) && ct.flows == map[]
    {
      rules, rulesSet := [], false;
      ct := new Table();
    }

    method SetRules(r: seq<Rule>)
      modifies this
      ensures rules == r && rulesSet
    {
      rules, rulesSet := r, true;
    }

    method ClearRules()
      modifies this
      ensures rules == [] && !rulesSet
    {
      rules, rulesSet := [], false;
    }

    /** Outgoing packets are never filtered, and are remembered once a policy is set. */
    method Read(batch: seq<Timed>)
      modifies ct
      ensures ct.flows == if rulesSet then ObserveAll(old(ct.flows), batch) else old(ct.flows)
    {
      if !rulesSet {
        return;
      }
      for i := 0 to |batch|
        invariant ct.flows == ObserveAll(old(ct.flows), batch[..i])
      {
        assert batch[..i + 1][..i] == batch[..i];
        if batch[i].pkt != [] {
          ct.ObserveOutbound(batch[i].pkt, batch[i].at);
        }
      }
      assert batch[..|batch|] == batch;
    }

    /** Before the first policy everything passes; afterwards replies and what the
        rules allow, in the order they came. */
    method Write(batch: seq<Timed>, locals: set<Addr>) returns (delivered: seq<Bytes>)
      modifies ct
      ensures rulesSet ==> (ct.flows, delivered) == Deliver(old(ct.flows), rules, locals, batch)
      ensures !rulesSet ==> delivered == Packets(batch) && ct.flows == old(ct.flows)
    {
      if !rulesSet {
        return Packets(batch);
      }
      delivered := [];
      for i := 0 to |batch|
        invariant (ct.flows, delivered) == Deliver(old(ct.flows), rules, locals, batch[..i])
      {
        assert batch[..i + 1][..i] == batch[..i];
        if batch[i].pkt != [] {
          var reply := ct.AllowInbound(batch[i].pkt, batch[i].at);
          if reply || FilterAllows(batch[i].pkt, rules, locals) {
            delivered := delivered + [batch[i].pkt];
          }
        }
      }
      assert batch[..|batch|] == batch;
    }
  }

  function Packets(batch: seq<Timed>): seq<Bytes> {
    seq(|batch|, i requires 0 <= i < |batch| => batch[i].pkt)
  }

  /** The inbound events a batch stands for. */
  function Arrivals(batch: seq<Timed>): seq<Event> {
    if batch == [] then [] else Arrivals(batch[..|batch| - 1]) + Arrival(batch[|batch| - 1])
  }

  function Arrival(b: Timed): seq<Event> {
    if b.pkt == [] then [] else [In(ParseFlowKey(b.pkt), b.at)]
  }

  /** What a batch leaves behind: the table trimmed, nothing sent. */
  ghost predicate Trimmed(es: seq<Event>, es': seq<Event>, f: Flows) {
    && es <= es' && Clocked(es') && After(es').flows == f && After(es').clear == After(es).clear
    && forall k, i :: Sent(es', i, k) <==> Sent(es, i, k)
  }

  lemma TrimOne(es: seq<Event>, es': seq<Event>, f: Flows, flow: Flow, now: Time)
    requires Trimmed(es, es', f) && Clocked(es' + [In(flow, now)])
    ensures Trimmed(es, es' + [In(flow, now)], Look(f, flow, now))
  {
    var es'' := es' + [In(flow, now)];
    assert es''[..|es'|] == es';
  }

  lemma TrimArrival(
    es: seq<Event>, es': seq<Event>, f: Flows, out: seq<Bytes>, rules: seq<Rule>, locals: set<Addr>, b: Timed)
    requires Trimmed(es, es', f) && Clocked(es' + Arrival(b))
    ensures Trimmed(es, es' + Arrival(b), DeliverOne(f, out, rules, locals, b).0)
  {
    if b.pkt == [] {
      assert es' + [] == es';
    } else {
      TrimOne(es, es', f, ParseFlowKey(b.pkt), b.at);
    }
  }

  lemma {:induction false} ArrivalsFront(es: seq<Event>, batch: seq<Timed>)
    requires batch != [] && Clocked(es + Arrivals(batch))
    ensures var es' := es + Arrivals(batch[..|batch| - 1]);
      es + Arrivals(batch) == es' + Arrival(batch[|batch| - 1]) && Clocked(es')
  {
    var es', all := es + Arrivals(batch[..|batch| - 1]), es + Arrivals(batch);
    assert all == es' + Arrival(batch[|batch| - 1]);
    assert es' == all[..|es'|];
  }

  lemma {:induction false} DeliverTrims(es: seq<Event>, rules: seq<Rule>, locals: set<Addr>, batch: seq<Timed>)
    requires Clocked(es + Arrivals(batch))
    ensures Trimmed(es, es + Arrivals(batch), Deliver(After(es).flows, rules, locals, batch).0)
  {
    if batch == [] {
      assert es + [] == es;
    } else {
      var front, b := batch[..|batch| - 1], batch[|batch| - 1];
      ArrivalsFront(es, batch);
      DeliverTrims(es, rules, locals, front);
      var f := Deliver(After(es).flows, rules, locals, front);
      TrimArrival(es, es + Arrivals(front), f.0, f.1, rules, locals, b);
    }
  }

  lemma SameSends(es: seq<Event>, es': seq<Event>, f: Flows, flow: Flow, now: Time)
    requires Trimmed(es, es', f) && (es' != [] ==> es'[|es'| - 1].now <= now)
    ensures Admits(f, flow, now) <==> Solicited(es, flow, now)
  {
    AdmitsIffSolicited(es', flow, now);
    if flow.Some? {
      assert forall i :: Sent(es, i, flow.value) ==> es'[i] == es[i];
    }
  }

  /** The host asked for the packet, or the rules allow it. */
  ghost predicate Passes(es: seq<Event>, rules: seq<Rule>, locals: set<Addr>, b: Timed) {
    b.pkt != [] && (Solicited(es, ParseFlowKey(b.pkt), b.at) || FilterAllows(b.pkt, rules, locals))
  }

  /** The packets of the batch that pass, in order, each as often as it came. */
  ghost function Passing(es: seq<Event>, rules: seq<Rule>, locals: set<Addr>, batch: seq<Timed>): seq<Bytes> {
    if batch == [] then []
    else
      var front, b := Passing(es, rules, locals, batch[..|batch| - 1]), batch[|batch| - 1];
      if Passes(es, rules, locals, b) then front + [b.pkt] else front
  }

  lemma PassesIff(es: seq<Event>, es': seq<Event>, f: Flows, rules: seq<Rule>, locals: set<Addr>, b: Timed)
    requires Trimmed(es, es', f) && Clocked(es' + Arrival(b)) && b.pkt != []
    ensures Passes(es, rules, locals, b) <==> Admits(f, ParseFlowKey(b.pkt), b.at) || FilterAllows(b.pkt, rules, locals)
  {
    var all := es' + Arrival(b);
    assert es' != [] ==> all[|es'| - 1].now <= all[|es'|].now;
    SameSends(es, es', f, ParseFlowKey(b.pkt), b.at);
  }

  /** With a policy set, what reaches the OS is the batch without the packets that are
      neither solicited nor allowed by the rules, in order, whatever else is in the batch
      and however the table was trimmed. */
  lemma {:induction false} DeliveredIff(es: seq<Event>, rules: seq<Rule>, locals: set<Addr>, batch: seq<Timed>)
    requires Clocked(es + Arrivals(batch))
    ensures Deliver(After(es).flows, rules, locals, batch).1 == Passing(es, rules, locals, batch)
  {
    if batch != [] {
      var front, b := batch[..|batch| - 1], batch[|batch| - 1];
      ArrivalsFront(es, batch);
      DeliveredIff(es, rules, locals, front);
      DeliverTrims(es, rules, locals, front);
      if b.pkt != [] {
        PassesIff(es, es + Arrivals(front), Deliver(After(es).flows, rules, locals, front).0, rules, locals, b);
      }
    }
  }
}
