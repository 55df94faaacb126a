/** The signal server's router. Every handler runs on its own: a message is received,
    its target is looked up in one critical section and enqueued or forwarded in
    another, held messages are taken when the target registers and sent one by one.
    Each of these is one event and a run is any sequence of events. */
module SignalRouter {
  import opened Domain

  type StreamId = nat
  type Time = int   // nanoseconds

  const PENDING_TTL: Time := 15_000_000_000
  const PENDING_PER_PEER: nat := 32
  const DROP_LOG_EVERY: Time := 30_000_000_000

  /** `id` tells messages apart; it is not on the wire. */
  datatype Msg = Msg(id: nat, key: Key, remote: Key, relay: bool)

  datatype Queue = Queue(msgs: seq<Msg>, at: Time)

  // ---- The tables ----------------------------------------------------------------

  predicate Live(q: Queue, now: Time) {
    now - q.at <= PENDING_TTL
  }

  function Expire(p: map<Key, Queue>, now: Time): map<Key, Queue> {
    map k | k in p && Live(p[k], now) :: p[k]
  }

  function Waiting(p: map<Key, Queue>, key: Key): seq<Msg> {
    if key in p then p[key].msgs else []
  }

  /** Room for one more: a full queue loses its oldest message. */
  function Trim(q: seq<Msg>): seq<Msg> {
    if |q| >= PENDING_PER_PEER then q[1..] else q
  }

  function Hold(p: map<Key, Queue>, m: Msg, now: Time): map<Key, Queue> {
    var e := Expire(p, now);
    e[m.remote := Queue(Trim(Waiting(e, m.remote)) + [m], now)]
  }

  function Taken(p: map<Key, Queue>, key: Key, now: Time): seq<Msg> {
    if key in p && Live(p[key], now) then p[key].msgs else []
  }

  /** The server's maps, changed in place under its lock. */
  class Server {
    var streams: map<Key, StreamId>
    var pending: map<Key, Queue>
    var dropLog: map<Key, Time>

    constructor ()
      ensures streams == map[] && pending == map[] && dropLog == map[]
    {
      streams, pending, dropLog := map[], map[], map[];
    }

    method ExpirePending(now: Time)
      modifies this`pending
      ensures pending == Expire(old(pending), now)
    {
      var todo := pending.Keys;
      while todo != {}
        invariant todo <= pending.Keys <= old(pending).Keys
        invariant forall k :: k in pending ==> pending[k] == old(pending)[k]
        invariant forall k :: k in old(pending) ==> (k in pending <==> k in todo || Live(old(pending)[k], now))
        decreases |todo|
      {
        var k :| k in todo;
        todo := todo - {k};
        if now - pending[k].at > PENDING_TTL {
          pending := pending - {k};
        }
      }
    }

    method TakePending(key: Key, now: Time) returns (queued: seq<Msg>)
      modifies this`pending
      ensures queued == Taken(old(pending), key, now) && pending == old(pending) - {key}
    {
      if key !in pending {
        assert pending - {key} == pending;
        return [];
      }
      var q := pending[key];
      pending := pending - {key};
      if now - q.at > PENDING_TTL {
        return [];
      }
      return q.msgs;
    }

    /** The registration a stream's first message causes. */
    method Register(key: Key, id: StreamId, now: Time) returns (queued: seq<Msg>)
      modifies this`streams, this`pending
      ensures streams == old(streams)[key := id]
      ensures queued == Taken(old(pending), key, now) && pending == old(pending) - {key}
    {
      streams := streams[key := id];
      queued := TakePending(key, now);
    }

    /** A stream that ends removes only its own registration. */
    method Deregister(key: Key, id: StreamId)
      modifies this`streams
      ensures streams == if key in old(streams) && old(streams)[key] == id then old(streams) - {key} else old(streams)
    {
      if key in streams && streams[key] == id {
        streams := streams - {key};
      }
    }

    /** Data is dropped and reported at most twice a minute per target; signaling is held. */
    method HandleAbsentTarget(m: Msg, now: Time) returns (reported: bool)
      modifies this`pending, this`dropLog
      ensures m.relay ==> pending == old(pending)
      ensures !m.relay ==> pending == Hold(old(pending), m, now) && dropLog == old(dropLog) && !reported
      ensures m.relay ==>
        (reported <==> m.remote !in old(dropLog) || now - old(dropLog)[m.remote] >= DROP_LOG_EVERY)
      ensures m.relay ==> dropLog == if reported then old(dropLog)[m.remote := now] else old(dropLog)
    {
      reported := false;
      if m.relay {
        reported := m.remote !in dropLog || now - dropLog[m.remote] >= DROP_LOG_EVERY;
        if reported {
          dropLog := dropLog[m.remote := now];
        }
        return;
      }
      ExpirePending(now);
      var q := if m.remote in pending then pending[m.remote].msgs else [];
      if |q| >= PENDING_PER_PEER {
        q := q[1..];
      }
      pending := pending[m.remote := Queue(q + [m], now)];
    }
  }

  // ---- Handlers and events -------------------------------------------------------

  datatype Stage = Receiving | Flushing | Routing | Absent | Forwarding(target: StreamId)

  /** `key` is "" until the stream registers, `auth` is the identity its token proved,
      `hand` the message it works on and `batch` what it still has to flush. */
  datatype Handler = Handler(key: Key, auth: Option<Key>, open: bool, stage: Stage, hand: Option<Msg>, batch: seq<Msg>)

  datatype Outcome = Handed(target: StreamId) | Evicted | Expired | Abandoned

  datatype Place = InHand(h: StreamId) | InBatch(b: StreamId) | Held(key: Key) | Done(outcome: Outcome)

  datatype Source = Source(h: StreamId, msg: Msg)

  datatype Arrival = Arrival(msg: Msg, time: Time)

  /** The server and its handlers. The last three fields are history: the stream that
      last registered under a key, the arrivals at a queue since it was last empty, and
      where each accepted message came from. */
  datatype Core = Core(
    now: Time,
    streams: map<Key, StreamId>,
    pending: map<Key, Queue>,
    handlers: map<StreamId, Handler>,
    registered: map<Key, StreamId>,
    arrivals: map<Key, seq<Arrival>>,
    origin: map<nat, Source>)

  /** The server with the record kept of its messages: what became of the finished
      ones, and where each was put last. */
  datatype State = State(core: Core, done: map<nat, Outcome>, place: map<nat, Place>)

  datatype Event =
    | Tick(t: Time)
    | Open(h: StreamId, auth: Option<Key>)
    | Receive(h: StreamId, msg: Msg)
    | FlushOne(h: StreamId, ok: bool)
    | FlushEnd(h: StreamId)
    | Lookup(h: StreamId)
    | Forward(h: StreamId)
    | Enqueue(h: StreamId)
    | Hangup(h: StreamId)

  const START := Core(0, map[], map[], map[], map[], map[], map[])

  /** The messages the conservation law is about: addressed and not WireGuard data. */
  predicate Tracked(m: Msg) {
    |m.remote| > 0 && !m.relay
  }

  function Put(c: Core, h: StreamId, t: Handler): Core {
    c.(handlers := c.handlers[h := t])
  }

  /** A stream returns, with or without an error, and removes its own registration. */
  function Leave(c: Core, h: StreamId, t: Handler): Core {
    Put(c, h, t.(open := false))
      .(streams := if t.key in c.streams && c.streams[t.key] == h then c.streams - {t.key} else c.streams)
  }

  /** A message that passed the identity checks is in the handler's hand. */
  function Accept(c: Core, h: StreamId, t: Handler, m: Msg): Core {
    Put(c, h, t.(hand := Some(m))).(origin := c.origin[m.id := Source(h, m)])
  }

  /** The stream registers and takes what was held for it. */
  function Register(c: Core, h: StreamId, t: Handler, key: Key): Core {
    Put(c, h, t.(key := key, stage := Flushing, batch := Taken(c.pending, key, c.now)))
      .(streams := c.streams[key := h], registered := c.registered[key := h], pending := c.pending - {key})
  }

  /** What the receive loop makes of a message. */
  datatype Reading = Ignored | Refused | First | Idle | Addressed

  function Read(c: Core, t: Handler, m: Msg): Reading {
    if !t.open || !t.stage.Receiving? || m.id in c.origin then Ignored
    else if |t.key| == 0 then
      if |m.key| == 0 || (t.auth.Some? && m.key != t.auth.value) then Refused else First
    else if m.key != t.key then Refused
    else if |m.remote| == 0 then Idle
    else Addressed
  }

  function Take(c: Core, h: StreamId, t: Handler, m: Msg): Core {
    match Read(c, t, m)
    case Ignored => c
    case Refused => Leave(c, h, t)
    case First => Accept(Register(c, h, t, m.key), h, Register(c, h, t, m.key).handlers[h], m)
    case Idle => c.(origin := c.origin[m.id := Source(h, m)])
    case Addressed => Accept(c, h, t.(stage := Routing), m)
  }

  /** A held message is sent; a failed send gives up on the rest. */
  function Flush(c: Core, h: StreamId, t: Handler, ok: bool): Core {
    if t.batch == [] then c else Put(c, h, t.(batch := if ok then t.batch[1..] else []))
  }

  /** After the flush the first message itself is routed, if it is addressed. */
  function EndFlush(c: Core, h: StreamId, t: Handler): Core {
    if !t.stage.Flushing? || t.batch != [] || t.hand.None? then c
    else if |t.hand.value.remote| == 0 then Put(c, h, t.(stage := Receiving, hand := None))
    else Put(c, h, t.(stage := Routing))
  }

  function Find(c: Core, h: StreamId, t: Handler): Core {
    if !t.stage.Routing? || t.hand.None? then c
    else Put(c, h, t.(stage := if t.hand.value.remote in c.streams then Forwarding(c.streams[t.hand.value.remote]) else Absent))
  }

  /** The message is handed to the target's stream, whatever the send reports. */
  function Hand(c: Core, h: StreamId, t: Handler): Core {
    if !t.stage.Forwarding? || t.hand.None? then c else Put(c, h, t.(stage := Receiving, hand := None))
  }

  /** handleAbsentTarget: data is dropped, signaling is held. */
  function HandleAbsent(c: Core, h: StreamId, t: Handler): Core {
    if !t.stage.Absent? || t.hand.None? then c
    else
      var m := t.hand.value;
      var c' := Put(c, h, t.(stage := Receiving, hand := None));
      if !Tracked(m) then c'
      else c'.(pending := Hold(c.pending, m, c.now), arrivals := Arrived(c.arrivals, Expire(c.pending, c.now), m, c.now))
  }

  /** The arrivals since the queue of the target was last empty. */
  function Arrived(arrivals: map<Key, seq<Arrival>>, pending: map<Key, Queue>, m: Msg, now: Time): map<Key, seq<Arrival>> {
    var before := if m.remote in pending && m.remote in arrivals then arrivals[m.remote] else [];
    arrivals[m.remote := before + [Arrival(m, now)]]
  }

  function HandlerStep(c: Core, e: Event): Core
    requires !e.Tick? && !e.Open? && e.h in c.handlers
  {
    var t := c.handlers[e.h];
    match e
    case Receive(h, m) => Take(c, h, t, m)
    case FlushOne(h, ok) => Flush(c, h, t, ok)
    case FlushEnd(h) => EndFlush(c, h, t)
    case Lookup(h) => Find(c, h, t)
    case Forward(h) => Hand(c, h, t)
    case Enqueue(h) => HandleAbsent(c, h, t)
    case Hangup(h) => if t.open && t.stage.Receiving? then Leave(c, h, t) else c
  }

  function CoreStep(c: Core, e: Event): Core {
    match e
    case Tick(t) => if t < c.now then c else c.(now := t)
    case Open(h, auth) => if h in c.handlers then c else Put(c, h, Handler("", auth, true, Receiving, None, []))
    case _ => if e.h in c.handlers then HandlerStep(c, e) else c
  }

  function CoreRun(es: seq<Event>): Core {
    if es == [] then START else CoreStep(CoreRun(es[..|es| - 1]), es[|es| - 1])
  }

  // ---- The record of messages ----------------------------------------------------

  function Moved(place: map<nat, Place>, from: Place, to: Place): map<nat, Place> {
    map id | id in place :: if place[id] == from then to else place[id]
  }

  function Finished(done: map<nat, Outcome>, q: seq<Msg>, o: Outcome): map<nat, Outcome> {
    done + map m | m in q :: m.id := o
  }

  function RecordArrival(s: State, h: StreamId, m: Msg): State {
    if Tracked(m) then s.(place := s.place[m.id := InHand(h)]) else s
  }

  /** What was held for the key goes into the batch, or expires if it is stale. */
  function RecordTaken(s: State, h: StreamId, key: Key): State {
    if key in s.core.pending && !Live(s.core.pending[key], s.core.now)
    then s.(place := Moved(s.place, Held(key), Done(Expired)), done := Finished(s.done, s.core.pending[key].msgs, Expired))
    else s.(place := Moved(s.place, Held(key), InBatch(h)))
  }

  function RecordFlush(s: State, h: StreamId, t: Handler, ok: bool): State {
    if t.batch == [] then s
    else if ok then
      s.(place := s.place[t.batch[0].id := Done(Handed(h))], done := s.done[t.batch[0].id := Handed(h)])
    else s.(place := Moved(s.place, InBatch(h), Done(Abandoned)), done := Finished(s.done, t.batch, Abandoned))
  }

  function RecordOutcome(s: State, m: Msg, o: Outcome): State {
    if Tracked(m) then s.(place := s.place[m.id := Done(o)], done := s.done[m.id := o]) else s
  }

  function RecordExpiry(s: State): State {
    var p, now := s.core.pending, s.core.now;
    s.(place := map id | id in s.place ::
         if s.place[id].Held? && s.place[id].key !in Expire(p, now) then Done(Expired) else s.place[id],
       done := s.done + map k, m | k in p && !Live(p[k], now) && m in p[k].msgs :: m.id := Expired)
  }

  function RecordEviction(s: State, q: seq<Msg>): State {
    if |q| < PENDING_PER_PEER then s else RecordOutcome(s, q[0], Evicted)
  }

  function RecordAbsent(s: State, t: Handler): State {
    if !t.stage.Absent? || t.hand.None? || !Tracked(t.hand.value) then s
    else
      var m := t.hand.value;
      var s' := RecordEviction(RecordExpiry(s), Waiting(Expire(s.core.pending, s.core.now), m.remote));
      s'.(place := s'.place[m.id := Held(m.remote)])
  }

  /** The record after an event; the server itself is not touched. */
  function Record(s: State, e: Event): State {
    if e.Tick? || e.Open? || e.h !in s.core.handlers then s
    else
      var t := s.core.handlers[e.h];
      match e
      case Receive(h, m) =>
        (match Read(s.core, t, m)
         case First => RecordArrival(RecordTaken(s, h, m.key), h, m)
         case Addressed => RecordArrival(s, h, m)
         case _ => s)
      case FlushOne(h, ok) => RecordFlush(s, h, t, ok)
      case Forward(h) => if t.stage.Forwarding? && t.hand.Some? then RecordOutcome(s, t.hand.value, Handed(t.stage.target)) else s
      case Enqueue(h) => RecordAbsent(s, t)
      case _ => s
  }

  function Step(s: State, e: Event): State {
    Record(s, e).(core := CoreStep(s.core, e))
  }

  function Run(es: seq<Event>): State {
    if es == [] then State(START, map[], map[]) else Step(Run(es[..|es| - 1]), es[|es| - 1])
  }

  lemma {:induction false} RunCore(es: seq<Event>)
    ensures Run(es).core == CoreRun(es)
  {
    if es != [] {
      RunCore(es[..|es| - 1]);
    }
  }

  // ---- Conservation --------------------------------------------------------------

  predicate HasId(q: seq<Msg>, id: nat) {
    exists i :: 0 <= i < |q| && q[i].id == id
  }

  predicate Holds(t: Handler, id: nat) {
    t.hand.Some? && Tracked(t.hand.value) && t.hand.value.id == id
  }

  /** The message is, concretely, at the place. */
  predicate At(s: State, id: nat, p: Place) {
    match p
    case InHand(h) => h in s.core.handlers && Holds(s.core.handlers[h], id)
    case InBatch(h) => h in s.core.handlers && HasId(s.core.handlers[h].batch, id)
    case Held(k) => k in s.core.pending && HasId(s.core.pending[k].msgs, id)
    case Done(o) => id in s.done && s.done[id] == o
  }

  /** The record says where the message is, and knows exactly the tracked messages. */
  predicate PlacedAt(s: State, id: nat, p: Place) {
    && (At(s, id, p) <==> id in s.place && s.place[id] == p)
    && (id in s.place <==> id in s.core.origin && Tracked(s.core.origin[id].msg))
  }

  ghost predicate Placed(s: State) {
    forall id, p :: PlacedAt(s, id, p)
  }

  predicate Distinct(q: seq<Msg>) {
    forall i, j :: 0 <= i < j < |q| ==> q[i].id != q[j].id
  }

  /** The list holds known messages for `key`, each once. */
  predicate Proper(origin: map<nat, Source>, q: seq<Msg>, key: Key) {
    Distinct(q) && forall i :: 0 <= i < |q| ==>
      Tracked(q[i]) && q[i].remote == key && q[i].id in origin && origin[q[i].id].msg == q[i]
  }

  predicate HandlerShaped(origin: map<nat, Source>, t: Handler) {
    && Proper(origin, t.batch, t.key) && (!t.stage.Flushing? ==> t.batch == [])
    && (t.stage.Receiving? ==> t.hand.None?)
    && (t.hand.Some? ==> t.hand.value.id in origin && origin[t.hand.value.id].msg == t.hand.value)
  }

  ghost predicate Shaped(c: Core) {
    && (forall k :: k in c.pending ==> Proper(c.origin, c.pending[k].msgs, k))
    && (forall h :: h in c.handlers ==> HandlerShaped(c.origin, c.handlers[h]))
  }

  lemma HasIdSnoc(q: seq<Msg>, m: Msg, id: nat)
    ensures HasId(q + [m], id) <==> HasId(q, id) || m.id == id
  {
    var t := q + [m];
    assert forall i :: 0 <= i < |q| ==> t[i] == q[i];
    assert t[|q|] == m;
  }

  lemma FinishedAt(done: map<nat, Outcome>, q: seq<Msg>, o: Outcome, id: nat)
    ensures id in Finished(done, q, o) <==> id in done || HasId(q, id)
    ensures HasId(q, id) ==> Finished(done, q, o)[id] == o
    ensures !HasId(q, id) && id in done ==> Finished(done, q, o)[id] == done[id]
  {
  }

  lemma ProperTail(origin: map<nat, Source>, q: seq<Msg>, key: Key)
    requires q != [] && Proper(origin, q, key)
    ensures Proper(origin, q[1..], key)
  {
  }

  lemma ProperKept(origin: map<nat, Source>, origin': map<nat, Source>, q: seq<Msg>, key: Key)
    requires Proper(origin, q, key)
    requires forall id :: id in origin ==> id in origin' && origin'[id] == origin[id]
    ensures Proper(origin', q, key)
  {
  }

  // One message and one place, for each way the server moves messages.

  lemma FrameAt(s: State, c: Core, id: nat, p: Place)
    requires PlacedAt(s, id, p) && c.pending == s.core.pending
    requires id in c.origin && Tracked(c.origin[id].msg) <==> id in s.core.origin && Tracked(s.core.origin[id].msg)
    requires forall h :: h in s.core.handlers ==>
      (h in c.handlers && (Holds(c.handlers[h], id) <==> Holds(s.core.handlers[h], id))
       && c.handlers[h].batch == s.core.handlers[h].batch)
    requires forall h :: h in c.handlers && h !in s.core.handlers ==> c.handlers[h].hand == None && c.handlers[h].batch == []
    ensures PlacedAt(s.(core := c), id, p)
  {
  }

  lemma HandAt(s: State, h: StreamId, t: Handler, u: Handler, m: Msg, o: Outcome, id: nat, p: Place)
    requires h in s.core.handlers && s.core.handlers[h] == t && t.hand == Some(m) && PlacedAt(s, id, p)
    requires u.hand == None && u.batch == t.batch
    requires Tracked(m) ==> m.id in s.place && s.place[m.id] == InHand(h)
    ensures PlacedAt(RecordOutcome(s, m, o).(core := Put(s.core, h, u)), id, p)
  {
  }

  lemma FlushSentAt(s: State, h: StreamId, t: Handler, id: nat, p: Place)
    requires h in s.core.handlers && s.core.handlers[h] == t && t.batch != [] && Distinct(t.batch)
    requires PlacedAt(s, id, p) && PlacedAt(s, t.batch[0].id, InBatch(h))
    ensures PlacedAt(RecordFlush(s, h, t, true).(core := Flush(s.core, h, t, true)), id, p)
  {
  }

  lemma FlushFailedAt(s: State, h: StreamId, t: Handler, id: nat, p: Place)
    requires h in s.core.handlers && s.core.handlers[h] == t && t.batch != []
    requires PlacedAt(s, id, p) && PlacedAt(s, id, InBatch(h))
    ensures PlacedAt(RecordFlush(s, h, t, false).(core := Flush(s.core, h, t, false)), id, p)
  {
  }

  lemma AcceptAt(s: State, h: StreamId, t: Handler, m: Msg, id: nat, p: Place)
    requires h in s.core.handlers && s.core.handlers[h].hand == None && s.core.handlers[h].batch == t.batch
    requires m.id !in s.core.origin && PlacedAt(s, id, p)
    ensures PlacedAt(RecordArrival(s, h, m).(core := Accept(s.core, h, t, m)), id, p)
  {
  }

  lemma RegisterAt(s: State, h: StreamId, t: Handler, key: Key, id: nat, p: Place)
    requires h in s.core.handlers && s.core.handlers[h] == t && t.batch == []
    requires PlacedAt(s, id, p) && PlacedAt(s, id, Held(key)) && PlacedAt(s, id, InBatch(h))
    ensures PlacedAt(RecordTaken(s, h, key).(core := Register(s.core, h, t, key)), id, p)
  {
    if key in s.core.pending {
      FinishedAt(s.done, s.core.pending[key].msgs, Expired, id);
    }
  }

  function Purge(c: Core): Core {
    c.(pending := Expire(c.pending, c.now))
  }

  lemma ExpireAt(s: State, id: nat, k: Key, p: Place)
    requires PlacedAt(s, id, p) && PlacedAt(s, id, Held(k)) && (id in s.place && s.place[id].Held? ==> k == s.place[id].key)
    requires forall q :: q in s.core.pending && HasId(s.core.pending[q].msgs, id) ==> q == k
    ensures PlacedAt(RecordExpiry(s).(core := Purge(s.core)), id, p)
  {
  }

  /** The full queue without its oldest message. */
  function Shorten(c: Core, key: Key): Core
    requires key in c.pending && c.pending[key].msgs != []
  {
    c.(pending := c.pending[key := c.pending[key].(msgs := c.pending[key].msgs[1..])])
  }

  lemma EvictAt(s: State, key: Key, q: seq<Msg>, id: nat, p: Place)
    requires key in s.core.pending && s.core.pending[key].msgs == q && q != [] && Distinct(q) && Tracked(q[0])
    requires PlacedAt(s, id, p) && PlacedAt(s, q[0].id, Held(key))
    ensures PlacedAt(RecordOutcome(s, q[0], Evicted).(core := Shorten(s.core, key)), id, p)
  {
  }

  /** The handler is done and its message is at the end of the queue. */
  function Append(c: Core, h: StreamId, t: Handler, m: Msg): Core {
    Put(c, h, t.(stage := Receiving, hand := None))
      .(pending := c.pending[m.remote := Queue(Waiting(c.pending, m.remote) + [m], c.now)],
        arrivals := Arrived(c.arrivals, c.pending, m, c.now))
  }

  lemma AppendAt(s: State, h: StreamId, t: Handler, m: Msg, id: nat, p: Place)
    requires h in s.core.handlers && s.core.handlers[h] == t && t.hand == Some(m) && Tracked(m)
    requires PlacedAt(s, id, p) && PlacedAt(s, id, Held(m.remote)) && PlacedAt(s, m.id, InHand(h))
    ensures PlacedAt(s.(place := s.place[m.id := Held(m.remote)], core := Append(s.core, h, t, m)), id, p)
  {
    HasIdSnoc(Waiting(s.core.pending, m.remote), m, id);
    assert m.remote !in s.core.pending ==> !HasId(Waiting(s.core.pending, m.remote), id);
  }

  // Each step keeps the lists proper and the record right.

  ghost predicate Good(s: State) {
    Shaped(s.core) && Placed(s)
  }

  lemma PutShaped(c: Core, h: StreamId, u: Handler)
    requires Shaped(c) && HandlerShaped(c.origin, u)
    ensures Shaped(Put(c, h, u))
  {
  }

  /** The handler changes its stage, or lets go of an untracked message. */
  lemma PutKeeps(s: State, h: StreamId, u: Handler)
    requires Good(s) && h in s.core.handlers && HandlerShaped(s.core.origin, u) && u.batch == s.core.handlers[h].batch
    requires var t := s.core.handlers[h];
      u.hand == t.hand || (u.hand == None && t.hand.Some? && !Tracked(t.hand.value))
    ensures Good(s.(core := Put(s.core, h, u)))
  {
    PutShaped(s.core, h, u);
    forall id, p
      ensures PlacedAt(s.(core := Put(s.core, h, u)), id, p)
    {
      assert PlacedAt(s, id, p);
      FrameAt(s, Put(s.core, h, u), id, p);
    }
  }

  lemma LeaveKeeps(s: State, h: StreamId)
    requires Good(s) && h in s.core.handlers
    ensures Good(s.(core := Leave(s.core, h, s.core.handlers[h])))
  {
    var t := s.core.handlers[h];
    var c := Leave(s.core, h, t);
    assert HandlerShaped(s.core.origin, t);
    PutShaped(s.core, h, t.(open := false));
    forall id, p
      ensures PlacedAt(s.(core := c), id, p)
    {
      assert PlacedAt(s, id, p);
      FrameAt(s, c, id, p);
    }
  }

  lemma HandKeeps(s: State, h: StreamId, m: Msg, o: Outcome)
    requires Good(s) && h in s.core.handlers && s.core.handlers[h].hand == Some(m) && s.core.handlers[h].batch == []
    ensures Good(RecordOutcome(s, m, o).(core := Put(s.core, h, s.core.handlers[h].(stage := Receiving, hand := None))))
  {
    var t := s.core.handlers[h];
    var u := t.(stage := Receiving, hand := None);
    assert PlacedAt(s, m.id, InHand(h)) && HandlerShaped(s.core.origin, t);
    PutShaped(s.core, h, u);
    forall id, p
      ensures PlacedAt(RecordOutcome(s, m, o).(core := Put(s.core, h, u)), id, p)
    {
      assert PlacedAt(s, id, p);
      HandAt(s, h, t, u, m, o, id, p);
    }
  }

  lemma FlushKeeps(s: State, h: StreamId, ok: bool)
    requires Good(s) && h in s.core.handlers && s.core.handlers[h].batch != []
    ensures Good(RecordFlush(s, h, s.core.handlers[h], ok).(core := Flush(s.core, h, s.core.handlers[h], ok)))
  {
    var t := s.core.handlers[h];
    assert HandlerShaped(s.core.origin, t) && PlacedAt(s, t.batch[0].id, InBatch(h));
    ProperTail(s.core.origin, t.batch, t.key);
    PutShaped(s.core, h, t.(batch := if ok then t.batch[1..] else []));
    forall id, p
      ensures PlacedAt(RecordFlush(s, h, t, ok).(core := Flush(s.core, h, t, ok)), id, p)
    {
      assert PlacedAt(s, id, p) && PlacedAt(s, id, InBatch(h));
      if ok {
        FlushSentAt(s, h, t, id, p);
      } else {
        FlushFailedAt(s, h, t, id, p);
      }
    }
  }

  lemma ShapedKept(c: Core, origin: map<nat, Source>)
    requires Shaped(c) && forall id :: id in c.origin ==> id in origin && origin[id] == c.origin[id]
    ensures Shaped(c.(origin := origin))
  {
  }

  lemma AcceptKeeps(s: State, h: StreamId, t: Handler, m: Msg)
    requires Good(s) && h in s.core.handlers && s.core.handlers[h].hand == None && m.id !in s.core.origin
    requires t.hand == None && t.batch == s.core.handlers[h].batch && !t.stage.Receiving? && HandlerShaped(s.core.origin, t)
    ensures Good(RecordArrival(s, h, m).(core := Accept(s.core, h, t, m)))
  {
    var origin := s.core.origin[m.id := Source(h, m)];
    ShapedKept(s.core, origin);
    ProperKept(s.core.origin, origin, t.batch, t.key);
    PutShaped(s.core.(origin := origin), h, t.(hand := Some(m)));
    forall id, p
      ensures PlacedAt(RecordArrival(s, h, m).(core := Accept(s.core, h, t, m)), id, p)
    {
      assert PlacedAt(s, id, p);
      AcceptAt(s, h, t, m, id, p);
    }
  }

  lemma IgnoreKeeps(s: State, h: StreamId, m: Msg)
    requires Good(s) && |m.remote| == 0 && m.id !in s.core.origin
    ensures Good(s.(core := s.core.(origin := s.core.origin[m.id := Source(h, m)])))
  {
    var c := s.core.(origin := s.core.origin[m.id := Source(h, m)]);
    ShapedKept(s.core, c.origin);
    forall id, p
      ensures PlacedAt(s.(core := c), id, p)
    {
      assert PlacedAt(s, id, p);
      FrameAt(s, c, id, p);
    }
  }

  lemma RegisterKeeps(s: State, h: StreamId, key: Key)
    requires Good(s) && h in s.core.handlers && s.core.handlers[h].stage.Receiving?
    ensures Good(RecordTaken(s, h, key).(core := Register(s.core, h, s.core.handlers[h], key)))
  {
    var t := s.core.handlers[h];
    assert HandlerShaped(s.core.origin, t);
    assert key in s.core.pending ==> Proper(s.core.origin, s.core.pending[key].msgs, key);
    PutShaped(s.core, h, t.(key := key, stage := Flushing, batch := Taken(s.core.pending, key, s.core.now)));
    forall id, p
      ensures PlacedAt(RecordTaken(s, h, key).(core := Register(s.core, h, t, key)), id, p)
    {
      assert PlacedAt(s, id, p) && PlacedAt(s, id, Held(key)) && PlacedAt(s, id, InBatch(h));
      RegisterAt(s, h, t, key, id, p);
    }
  }

  lemma ReceiveKeeps(s: State, h: StreamId, m: Msg)
    requires Good(s) && h in s.core.handlers
    ensures Good(Step(s, Receive(h, m)))
  {
    var t := s.core.handlers[h];
    assert HandlerShaped(s.core.origin, t);
    match Read(s.core, t, m)
    case Ignored =>
    case Refused => LeaveKeeps(s, h);
    case First =>
      var r := RecordTaken(s, h, m.key).(core := Register(s.core, h, t, m.key));
      RegisterKeeps(s, h, m.key);
      assert HandlerShaped(r.core.origin, r.core.handlers[h]);
      AcceptKeeps(r, h, r.core.handlers[h], m);
    case Idle => IgnoreKeeps(s, h, m);
    case Addressed => AcceptKeeps(s, h, t.(stage := Routing), m);
  }

  lemma ExpireKeeps(s: State)
    requires Good(s)
    ensures Good(RecordExpiry(s).(core := Purge(s.core)))
  {
    forall id, p
      ensures PlacedAt(RecordExpiry(s).(core := Purge(s.core)), id, p)
    {
      var k := if id in s.place && s.place[id].Held? then s.place[id].key else "";
      assert PlacedAt(s, id, p) && PlacedAt(s, id, Held(k));
      forall q | q in s.core.pending && HasId(s.core.pending[q].msgs, id)
        ensures q == k
      {
        assert PlacedAt(s, id, Held(q));
      }
      ExpireAt(s, id, k, p);
    }
  }

  lemma EvictKeeps(s: State, key: Key, q: seq<Msg>)
    requires Good(s) && key in s.core.pending && s.core.pending[key].msgs == q && q != []
    ensures Good(RecordOutcome(s, q[0], Evicted).(core := Shorten(s.core, key)))
  {
    assert Proper(s.core.origin, q, key) && PlacedAt(s, q[0].id, Held(key));
    ProperTail(s.core.origin, q, key);
    forall id, p
      ensures PlacedAt(RecordOutcome(s, q[0], Evicted).(core := Shorten(s.core, key)), id, p)
    {
      assert PlacedAt(s, id, p);
      EvictAt(s, key, q, id, p);
    }
  }

  lemma AppendKeeps(s: State, h: StreamId, m: Msg)
    requires Good(s) && h in s.core.handlers && s.core.handlers[h].hand == Some(m) && Tracked(m) && s.core.handlers[h].batch == []
    ensures Good(s.(place := s.place[m.id := Held(m.remote)], core := Append(s.core, h, s.core.handlers[h], m)))
  {
    var t := s.core.handlers[h];
    var q := Waiting(s.core.pending, m.remote);
    assert PlacedAt(s, m.id, InHand(h)) && PlacedAt(s, m.id, Held(m.remote)) && HandlerShaped(s.core.origin, t);
    assert !HasId(q, m.id) && (m.remote in s.core.pending ==> Proper(s.core.origin, q, m.remote));
    assert Proper(s.core.origin, q + [m], m.remote);
    PutShaped(s.core, h, t.(stage := Receiving, hand := None));
    var s' := s.(place := s.place[m.id := Held(m.remote)], core := Append(s.core, h, t, m));
    forall id, p
      ensures PlacedAt(s', id, p)
    {
      assert PlacedAt(s, id, p) && PlacedAt(s, id, Held(m.remote));
      AppendAt(s, h, t, m, id, p);
    }
  }

  /** The queue with room for one more, as handleAbsentTarget leaves it before it appends. */
  function Prepared(c: Core, key: Key): Core {
    if |Waiting(Purge(c).pending, key)| >= PENDING_PER_PEER then Shorten(Purge(c), key) else Purge(c)
  }

  /** Shortening a full queue, then replacing it, is replacing it. */
  lemma PreparedPending(c: Core, m: Msg, q: Queue)
    ensures var e, d := Expire(c.pending, c.now), Prepared(c, m.remote).pending;
      && Waiting(d, m.remote) == Trim(Waiting(e, m.remote)) && d.Keys == e.Keys
      && d[m.remote := q] == e[m.remote := q]
  {
  }

  lemma HandleAbsentIsAppend(c: Core, h: StreamId, t: Handler, m: Msg)
    requires t.stage.Absent? && t.hand == Some(m) && Tracked(m)
    ensures HandleAbsent(c, h, t) == Append(Prepared(c, m.remote), h, t, m)
  {
    var e, d := Expire(c.pending, c.now), Prepared(c, m.remote);
    PreparedPending(c, m, Queue(Trim(Waiting(e, m.remote)) + [m], c.now));
    assert d == c.(pending := d.pending);
    assert Arrived(d.arrivals, d.pending, m, d.now) == Arrived(c.arrivals, e, m, c.now);
  }

  lemma EnqueueKeeps(s: State, h: StreamId)
    requires Good(s) && h in s.core.handlers
    ensures Good(Step(s, Enqueue(h)))
  {
    var c, t := s.core, s.core.handlers[h];
    assert HandlerShaped(c.origin, t);
    if t.stage.Absent? && t.hand.Some? {
      var m := t.hand.value;
      if Tracked(m) {
        HandleAbsentIsAppend(c, h, t, m);
        var s1 := RecordExpiry(s).(core := Purge(c));
        ExpireKeeps(s);
        var q := Waiting(s1.core.pending, m.remote);
        var s2 := RecordEviction(RecordExpiry(s), q).(core := Prepared(c, m.remote));
        if |q| >= PENDING_PER_PEER {
          EvictKeeps(s1, m.remote, q);
          assert Proper(s1.core.origin, q, m.remote);
        }
        AppendKeeps(s2, h, m);
      } else {
        PutKeeps(s, h, t.(stage := Receiving, hand := None));
      }
    }
  }

  lemma StepKeeps(s: State, e: Event)
    requires Good(s)
    ensures Good(Step(s, e))
  {
    if e.Tick? || e.Open? || e.h !in s.core.handlers {
      forall id, p
        ensures PlacedAt(Step(s, e), id, p)
      {
        assert PlacedAt(s, id, p);
        FrameAt(s, CoreStep(s.core, e), id, p);
      }
    } else {
      HandlerKeeps(s, e);
    }
  }

  lemma FlushEndKeeps(s: State, h: StreamId)
    requires Good(s) && h in s.core.handlers
    ensures Good(s.(core := EndFlush(s.core, h, s.core.handlers[h])))
  {
    var t := s.core.handlers[h];
    assert HandlerShaped(s.core.origin, t);
    if t.stage.Flushing? && t.batch == [] && t.hand.Some? {
      if |t.hand.value.remote| == 0 {
        PutKeeps(s, h, t.(stage := Receiving, hand := None));
      } else {
        PutKeeps(s, h, t.(stage := Routing));
      }
    }
  }

  lemma LookupKeeps(s: State, h: StreamId)
    requires Good(s) && h in s.core.handlers
    ensures Good(s.(core := Find(s.core, h, s.core.handlers[h])))
  {
    var t := s.core.handlers[h];
    assert HandlerShaped(s.core.origin, t);
    if t.stage.Routing? && t.hand.Some? {
      PutKeeps(s, h, t.(stage := Find(s.core, h, t).handlers[h].stage));
    }
  }

  lemma SendKeeps(s: State, e: Event)
    requires Good(s) && (e.FlushOne? || e.Forward?) && e.h in s.core.handlers
    ensures Good(Step(s, e))
  {
    var t := s.core.handlers[e.h];
    assert HandlerShaped(s.core.origin, t);
    if e.FlushOne? && t.batch != [] {
      FlushKeeps(s, e.h, e.ok);
    }
    if e.Forward? && t.stage.Forwarding? && t.hand.Some? {
      HandKeeps(s, e.h, t.hand.value, Handed(t.stage.target));
    }
  }

  lemma HandlerKeeps(s: State, e: Event)
    requires Good(s) && !e.Tick? && !e.Open? && e.h in s.core.handlers
    ensures Good(Step(s, e))
  {
    match e
    case Receive(h, m) => ReceiveKeeps(s, h, m);
    case Enqueue(h) => EnqueueKeeps(s, h);
    case Hangup(h) => LeaveKeeps(s, h);
    case FlushOne(_, _) => SendKeeps(s, e);
    case Forward(_) => SendKeeps(s, e);
    case FlushEnd(h) => FlushEndKeeps(s, h);
    case Lookup(h) => LookupKeeps(s, h);
  }

  lemma {:induction false} RunGood(es: seq<Event>)
    ensures Good(Run(es))
  {
    if es != [] {
      RunGood(es[..|es| - 1]);
      StepKeeps(Run(es[..|es| - 1]), es[|es| - 1]);
    }
  }

  /** Router conservation: over every interleaving, every accepted message that is
      addressed and not data is in exactly one place. */
  lemma {:induction false} Conservation(es: seq<Event>, id: nat)
    requires id in Run(es).core.origin && Tracked(Run(es).core.origin[id].msg)
    ensures exists p :: (At(Run(es), id, p) && forall q :: At(Run(es), id, q) ==> q == p)
  {
    RunGood(es);
    var s := Run(es);
    assert PlacedAt(s, id, Done(Expired));
    assert PlacedAt(s, id, s.place[id]);
    forall q | At(s, id, q)
      ensures q == s.place[id]
    {
      assert PlacedAt(s, id, q);
    }
  }

  /** Nothing else is anywhere: what is held, or on its way to a stream that
      reconnected, is signaling for that very peer, each message once. */
  lemma {:induction false} HeldIsSignaling(es: seq<Event>, key: Key, h: StreamId)
    ensures key in CoreRun(es).pending ==> (Distinct(CoreRun(es).pending[key].msgs)
      && forall m :: m in CoreRun(es).pending[key].msgs ==> !m.relay && m.remote == key)
    ensures h in CoreRun(es).handlers ==> (Distinct(CoreRun(es).handlers[h].batch)
      && forall m :: m in CoreRun(es).handlers[h].batch ==> !m.relay && m.remote == CoreRun(es).handlers[h].key)
  {
    RunGood(es);
    RunCore(es);
    var c := CoreRun(es);
    assert key in c.pending ==> Proper(c.origin, c.pending[key].msgs, key);
    assert h in c.handlers ==> HandlerShaped(c.origin, c.handlers[h]);
  }

  // ---- The window of held messages -----------------------------------------------

  /** The messages are the last of the arrivals, in order. */
  predicate Suffix(q: seq<Msg>, a: seq<Arrival>) {
    |q| <= |a| && forall i :: 0 <= i < |q| ==> q[i] == a[|a| - |q| + i].msg
  }

  predicate Gapped(a: seq<Arrival>) {
    forall i :: 0 < i < |a| ==> 0 <= a[i].time - a[i - 1].time <= PENDING_TTL
  }

  /** The queue is the last at most 32 arrivals, in order, never more than 15 s apart. */
  predicate Window(q: Queue, a: seq<Arrival>) {
    && 0 < |q.msgs| <= PENDING_PER_PEER && Suffix(q.msgs, a) && (|q.msgs| < PENDING_PER_PEER ==> |q.msgs| == |a|)
    && q.at == a[|a| - 1].time && Gapped(a)
  }

  predicate WindowAt(c: Core, k: Key) {
    k in c.pending ==> k in c.arrivals && Window(c.pending[k], c.arrivals[k]) && c.pending[k].at <= c.now
  }

  lemma SuffixGrows(q: seq<Msg>, a: seq<Arrival>, m: Msg, now: Time)
    requires Suffix(q, a)
    ensures Suffix(Trim(q) + [m], a + [Arrival(m, now)])
  {
    var r, b := Trim(q) + [m], a + [Arrival(m, now)];
    forall i | 0 <= i < |r|
      ensures r[i] == b[|b| - |r| + i].msg
    {
      if i < |r| - 1 {
        assert r[i] == if |q| >= PENDING_PER_PEER then q[i + 1] else q[i];
      }
    }
  }

  lemma GapsGrow(a: seq<Arrival>, m: Msg, now: Time)
    requires a != [] && Gapped(a) && 0 <= now - a[|a| - 1].time <= PENDING_TTL
    ensures Gapped(a + [Arrival(m, now)])
  {
    var b := a + [Arrival(m, now)];
    forall i | 0 < i < |b|
      ensures 0 <= b[i].time - b[i - 1].time <= PENDING_TTL
    {
      assert b[i - 1] == a[i - 1];
    }
  }

  lemma WindowGrows(q: Queue, a: seq<Arrival>, m: Msg, now: Time)
    requires Window(q, a) && Live(q, now) && q.at <= now
    ensures Window(Queue(Trim(q.msgs) + [m], now), a + [Arrival(m, now)])
  {
    SuffixGrows(q.msgs, a, m, now);
    GapsGrow(a, m, now);
    assert |Trim(q.msgs)| < PENDING_PER_PEER;
  }

  lemma WindowStarts(m: Msg, now: Time)
    ensures Window(Queue(Trim([]) + [m], now), [] + [Arrival(m, now)])
  {
  }

  /** The target's own queue after one more message is held. */
  lemma HoldWindow(p: map<Key, Queue>, a: map<Key, seq<Arrival>>, m: Msg, now: Time)
    requires m.remote in p ==> m.remote in a && Window(p[m.remote], a[m.remote]) && p[m.remote].at <= now
    ensures Window(Hold(p, m, now)[m.remote], Arrived(a, Expire(p, now), m, now)[m.remote])
    ensures Hold(p, m, now)[m.remote].at == now
  {
    if m.remote in Expire(p, now) {
      WindowGrows(p[m.remote], a[m.remote], m, now);
    } else {
      WindowStarts(m, now);
    }
  }

  /** Another queue is as it was, or expired. */
  lemma HoldOther(p: map<Key, Queue>, m: Msg, now: Time, k: Key)
    requires k != m.remote && k in Hold(p, m, now)
    ensures k in p && Hold(p, m, now)[k] == p[k]
  {
  }

  lemma AbsentWindow(c: Core, h: StreamId, t: Handler, k: Key)
    requires WindowAt(c, k)
    ensures WindowAt(HandleAbsent(c, h, t), k)
  {
    if t.stage.Absent? && t.hand.Some? && Tracked(t.hand.value) {
      var m := t.hand.value;
      if k == m.remote {
        HoldWindow(c.pending, c.arrivals, m, c.now);
      } else if k in Hold(c.pending, m, c.now) {
        HoldOther(c.pending, m, c.now, k);
      }
    }
  }

  lemma TakeWindow(c: Core, h: StreamId, t: Handler, m: Msg, k: Key)
    requires WindowAt(c, k)
    ensures WindowAt(Take(c, h, t, m), k)
  {
  }

  lemma StepWindow(c: Core, e: Event, k: Key)
    requires WindowAt(c, k)
    ensures WindowAt(CoreStep(c, e), k)
  {
    if e.Enqueue? && e.h in c.handlers {
      AbsentWindow(c, e.h, c.handlers[e.h], k);
    } else if e.Receive? && e.h in c.handlers {
      TakeWindow(c, e.h, c.handlers[e.h], e.msg, k);
    }
  }

  /** The queue for an absent peer, in every reachable state. */
  lemma {:induction false} HeldWindow(es: seq<Event>, k: Key)
    ensures WindowAt(CoreRun(es), k)
  {
    if es != [] {
      HeldWindow(es[..|es| - 1], k);
      StepWindow(CoreRun(es[..|es| - 1]), es[|es| - 1], k);
    }
  }

  lemma {:induction false} WindowAge(a: seq<Arrival>, i: nat, j: nat)
    requires i <= j < |a| && Gapped(a)
    ensures a[j].time - a[i].time <= (j - i) * PENDING_TTL
  {
    if i < j {
      WindowAge(a, i, j - 1);
    }
  }

  lemma WindowRecent(q: Queue, a: seq<Arrival>, now: Time, i: nat)
    requires Window(q, a) && Live(q, now) && i < |q.msgs|
    ensures a[|a| - |q.msgs| + i].msg == q.msgs[i] && now - a[|a| - |q.msgs| + i].time <= 480_000_000_000
  {
    WindowAge(a, |a| - |q.msgs| + i, |a| - 1);
    assert (|q.msgs| - 1 - i) * PENDING_TTL <= 31 * PENDING_TTL;
  }

  /** Message `i` of what a stream registering now under `k` is given is in its place in
      the tail of what arrived, and arrived at most 480 s ago. */
  predicate RecentAt(c: Core, k: Key, i: nat) {
    var taken := Taken(c.pending, k, c.now);
    i < |taken| ==>
      && k in c.arrivals && |taken| <= |c.arrivals[k]|
      && var a := c.arrivals[k];
         a[|a| - |taken| + i].msg == taken[i] && c.now - a[|a| - |taken| + i].time <= 480_000_000_000
  }

  lemma TakenRecent(c: Core, k: Key, i: nat)
    requires WindowAt(c, k)
    ensures RecentAt(c, k, i)
  {
    if i < |Taken(c.pending, k, c.now)| {
      WindowRecent(c.pending[k], c.arrivals[k], c.now, i);
    }
  }

  /** Whatever a reconnecting stream is given was held for at most 480 s, and is the
      tail of what arrived for it. */
  lemma {:induction false} FlushedIsRecent(es: seq<Event>, k: Key, i: nat)
    ensures RecentAt(CoreRun(es), k, i)
  {
    HeldWindow(es, k);
    TakenRecent(CoreRun(es), k, i);
  }

  // ---- Registration --------------------------------------------------------------

  /** The stream under a key is the one that registered last, while it is open. */
  predicate CurrentAt(c: Core, k: Key) {
    && (k in c.registered ==> |k| > 0 && c.registered[k] in c.handlers && c.handlers[c.registered[k]].key == k)
    && (k in c.streams <==> k in c.registered && c.handlers[c.registered[k]].open)
    && (k in c.streams ==> c.streams[k] == c.registered[k])
  }

  /** A registered stream goes by the key its token proved. */
  predicate ProvenAt(c: Core, h: StreamId) {
    h in c.handlers && |c.handlers[h].key| > 0 && c.handlers[h].auth.Some? ==> c.handlers[h].auth.value == c.handlers[h].key
  }

  /** A message carries the key its origin stream registered. */
  predicate AuthenticAt(c: Core, id: nat) {
    id in c.origin ==>
      var o := c.origin[id];
      o.h in c.handlers && |c.handlers[o.h].key| > 0 && c.handlers[o.h].key == o.msg.key
  }

  predicate RegistryAt(c: Core, k: Key, h: StreamId, id: nat) {
    CurrentAt(c, k) && ProvenAt(c, h) && AuthenticAt(c, id)
  }

  lemma LeaveRegistry(c: Core, g: StreamId, k: Key, h: StreamId, id: nat)
    requires RegistryAt(c, k, h, id) && g in c.handlers
    ensures RegistryAt(Leave(c, g, c.handlers[g]), k, h, id)
  {
  }

  /** The handlers and the origins after a stream's first message. */
  lemma RegisterTakes(c: Core, g: StreamId, m: Msg)
    requires g in c.handlers && Read(c, c.handlers[g], m).First?
    ensures var c', t := Take(c, g, c.handlers[g], m), c.handlers[g];
      && c'.handlers == c.handlers[g :=
           t.(key := m.key, stage := Flushing, hand := Some(m), batch := Taken(c.pending, m.key, c.now))]
      && c'.origin == c.origin[m.id := Source(g, m)]
      && c'.streams == c.streams[m.key := g] && c'.registered == c.registered[m.key := g]
  {
    var d := Register(c, g, c.handlers[g], m.key);
    assert d.handlers[g := d.handlers[g].(hand := Some(m))] == c.handlers[g := d.handlers[g].(hand := Some(m))];
  }

  lemma RegisterCurrent(c: Core, g: StreamId, m: Msg, k: Key)
    requires CurrentAt(c, k) && g in c.handlers && Read(c, c.handlers[g], m).First?
    ensures CurrentAt(Take(c, g, c.handlers[g], m), k)
  {
    RegisterTakes(c, g, m);
    assert k in c.registered && c.registered[k] == g ==> |c.handlers[g].key| > 0;
  }

  lemma RegisterAuthentic(c: Core, g: StreamId, m: Msg, h: StreamId, id: nat)
    requires ProvenAt(c, h) && AuthenticAt(c, id) && g in c.handlers && Read(c, c.handlers[g], m).First?
    ensures ProvenAt(Take(c, g, c.handlers[g], m), h) && AuthenticAt(Take(c, g, c.handlers[g], m), id)
  {
    RegisterTakes(c, g, m);
  }

  lemma AcceptRegistry(c: Core, g: StreamId, m: Msg, k: Key, h: StreamId, id: nat)
    requires RegistryAt(c, k, h, id) && g in c.handlers
    requires Read(c, c.handlers[g], m).Idle? || Read(c, c.handlers[g], m).Addressed?
    ensures RegistryAt(Take(c, g, c.handlers[g], m), k, h, id)
  {
    PutRegistry(c, g, c.handlers[g].(stage := Routing, hand := Some(m)), k, h, id);
  }

  lemma TakeRegistry(c: Core, g: StreamId, m: Msg, k: Key, h: StreamId, id: nat)
    requires RegistryAt(c, k, h, id) && g in c.handlers
    ensures RegistryAt(Take(c, g, c.handlers[g], m), k, h, id)
  {
    match Read(c, c.handlers[g], m)
    case Ignored =>
    case Refused => LeaveRegistry(c, g, k, h, id);
    case First => RegisterCurrent(c, g, m, k); RegisterAuthentic(c, g, m, h, id);
    case Idle => AcceptRegistry(c, g, m, k, h, id);
    case Addressed => AcceptRegistry(c, g, m, k, h, id);
  }

  lemma PutRegistry(c: Core, g: StreamId, u: Handler, k: Key, h: StreamId, id: nat)
    requires RegistryAt(c, k, h, id) && g in c.handlers
    requires var t := c.handlers[g]; u.key == t.key && u.auth == t.auth && u.open == t.open
    ensures RegistryAt(Put(c, g, u), k, h, id)
  {
  }

  /** Steps that change no identity. */
  lemma WorkRegistry(c: Core, e: Event, k: Key, h: StreamId, id: nat)
    requires e.FlushOne? || e.FlushEnd? || e.Lookup? || e.Forward?
    requires RegistryAt(c, k, h, id) && e.h in c.handlers
    ensures RegistryAt(HandlerStep(c, e), k, h, id)
  {
    var t := c.handlers[e.h];
    var c' := HandlerStep(c, e);
    if c' != c {
      PutRegistry(c, e.h, c'.handlers[e.h], k, h, id);
    }
  }

  lemma AbsentRegistry(c: Core, g: StreamId, k: Key, h: StreamId, id: nat)
    requires RegistryAt(c, k, h, id) && g in c.handlers
    ensures RegistryAt(HandleAbsent(c, g, c.handlers[g]), k, h, id)
  {
    PutRegistry(c, g, c.handlers[g].(stage := Receiving, hand := None), k, h, id);
  }

  lemma StepRegistry(c: Core, e: Event, k: Key, h: StreamId, id: nat)
    requires RegistryAt(c, k, h, id)
    ensures RegistryAt(CoreStep(c, e), k, h, id)
  {
    if !e.Tick? && !e.Open? && e.h in c.handlers {
      match e
      case Receive(g, m) => TakeRegistry(c, g, m, k, h, id);
      case Hangup(g) => LeaveRegistry(c, g, k, h, id);
      case Enqueue(g) => AbsentRegistry(c, g, k, h, id);
      case _ => WorkRegistry(c, e, k, h, id);
    }
  }

  /** After every run, at every key, stream and message: the stream mapped to a key is
      the one that registered last and is there exactly while that stream is open, a
      registered stream's verified key is its own, and every accepted message carries
      the key its origin stream registered. */
  lemma {:induction false} RegistryHolds(es: seq<Event>, k: Key, h: StreamId, id: nat)
    ensures RegistryAt(CoreRun(es), k, h, id)
  {
    if es != [] {
      RegistryHolds(es[..|es| - 1], k, h, id);
      StepRegistry(CoreRun(es[..|es| - 1]), es[|es| - 1], k, h, id);
    }
  }
}
