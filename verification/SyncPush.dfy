/** The push protocol between everything that writes the management store and the
    Sync streams that mirror it: save, then notify over a channel of capacity one,
    then re-read. Every lock-protected region and every channel operation is one
    event, and a run is any sequence of events, so all interleavings are covered. */
module SyncPush {
  import opened Domain

  type StreamId = nat
  type WriterId = nat

  datatype Store = Store(peers: map<Key, Peer>, rules: map<string, Rule>)

  /** What a stream is sent: the peers and the rules of its account. */
  datatype View = View(peers: map<Key, Peer>, rules: map<string, Rule>)

  /** A record without the fields that no message carries. */
  function AsSent(p: Peer): Peer {
    p.(device := p.device.(lastSeen := 0, createdAt := 0, kernel := "", version := ""))
  }

  function PeersOf(store: Store, account: Account): map<Key, Peer> {
    map k | k in store.peers && store.peers[k].account == account :: AsSent(store.peers[k])
  }

  function RulesOf(store: Store, account: Account): map<string, Rule> {
    map r | r in store.rules && store.rules[r].account == account :: store.rules[r]
  }

  function ViewOf(store: Store, account: Account): View {
    View(PeersOf(store, account), RulesOf(store, account))
  }

  datatype Write =
    | PutPeer(peer: Peer)
    | DropPeer(key: Key)
    | PutRule(rule: Rule)
    | DropRule(account: Account, id: string)

  function Apply(store: Store, w: Write): Store {
    match w
    case PutPeer(p) => store.(peers := store.peers[p.key := p])
    case DropPeer(k) => store.(peers := store.peers - {k})
    case PutRule(r) => store.(rules := store.rules[r.id := r])
    case DropRule(a, id) =>
      if id in store.rules && store.rules[id].account == a then store.(rules := store.rules - {id}) else store
  }

  /** One entry of a view. */
  datatype Item = PeerItem(key: Key) | RuleItem(id: string)

  datatype Record = PeerRecord(peer: Peer) | RuleRecord(rule: Rule)

  function PeerIn(peers: map<Key, Peer>, k: Key): Option<Record> {
    if k in peers then Some(PeerRecord(peers[k])) else None
  }

  function In(v: View, x: Item): Option<Record> {
    match x
    case PeerItem(k) => PeerIn(v.peers, k)
    case RuleItem(r) => if r in v.rules then Some(RuleRecord(v.rules[r])) else None
  }

  /** The one entry a write may change. */
  function Touched(w: Write): Item {
    match w
    case PutPeer(p) => PeerItem(p.key)
    case DropPeer(k) => PeerItem(k)
    case PutRule(r) => RuleItem(r.id)
    case DropRule(_, id) => RuleItem(id)
  }

  lemma ApplyTouchesOne(store: Store, w: Write, account: Account, x: Item)
    requires x != Touched(w)
    ensures In(ViewOf(Apply(store, w), account), x) == In(ViewOf(store, account), x)
  {
  }

  /** Entries determine a view. */
  lemma SameView(v: View, w: View)
    requires forall x :: In(v, x) == In(w, x)
    ensures v == w
  {
    forall k
      ensures k in v.peers <==> k in w.peers
      ensures k in v.peers ==> v.peers[k] == w.peers[k]
    {
      assert In(v, PeerItem(k)) == In(w, PeerItem(k));
    }
    forall r
      ensures r in v.rules <==> r in w.rules
      ensures r in v.rules ==> v.rules[r] == w.rules[r]
    {
      assert In(v, RuleItem(r)) == In(w, RuleItem(r));
    }
  }

  /** A request handler that saves and then notifies one account. While it walks the
      subscribers it holds the read lock, and `todo` is what it has not reached yet. */
  datatype Writer =
    | Saved(account: Account)
    | Notifying(account: Account, todo: set<Key>)

  datatype Pc =
    | Connecting
    | ReadingPeers
    | ReadingRules(peers: map<Key, Peer>)
    | Sending(view: View)
    | Waiting

  /** `token` is the content of the channel. The last two fields are history. `missed`
      are the entries whose last change since the stream read them came from a write that
      notifies nobody, or another account. `owed` says that some write since the stream
      last began to read notifies its account. */
  datatype Stream = Stream(
    key: Key,
    account: Account,
    open: bool,
    token: bool,
    pc: Pc,
    sent: Option<View>,
    missed: set<Item>,
    owed: bool)

  datatype State = State(
    store: Store,
    subs: map<Key, StreamId>,
    streams: map<StreamId, Stream>,
    writers: map<WriterId, Writer>)

  datatype Event =
    | Connect(id: StreamId, key: Key)
    | Register(id: StreamId)
    | FetchPeers(id: StreamId)
    | FetchRules(id: StreamId)
    | Push(id: StreamId)
    | Receive(id: StreamId)
    | Close(id: StreamId)
    | Save(w: WriterId, notify: Account, write: Write)
    | SaveSilently(write: Write)
    | BeginNotify(w: WriterId)
    | NotifyOne(w: WriterId, key: Key)
    | EndNotify(w: WriterId)

  function Init(store: Store): State {
    State(store, map[], map[], map[])
  }

  /** The write lock on `subs` excludes every walk over the subscribers. */
  predicate WriteLockFree(s: State) {
    forall w :: w in s.writers ==> !s.writers[w].Notifying?
  }

  predicate Active(s: State, id: StreamId) {
    id in s.streams && s.streams[id].open
  }

  /** The stream has read the entry since it last began to read. */
  predicate HasRead(pc: Pc, x: Item) {
    match pc
    case Connecting => false
    case ReadingPeers => false
    case ReadingRules(_) => x.PeerItem?
    case Sending(_) => true
    case Waiting => true
  }

  /** What the history of a stream makes of a write. */
  function Mark(t: Stream, before: Store, write: Write, notified: Option<Account>): Stream {
    var x := Touched(write);
    if t.pc.Connecting? || t.pc.ReadingPeers? then t
    else if notified == Some(t.account) then t.(missed := t.missed - {x}, owed := true)
    else if HasRead(t.pc, x) && In(ViewOf(before, t.account), x) != In(ViewOf(Apply(before, write), t.account), x)
    then t.(missed := t.missed + {x})
    else t
  }

  function MarkAll(streams: map<StreamId, Stream>, before: Store, write: Write, notified: Option<Account>)
    : map<StreamId, Stream>
  {
    map id | id in streams :: Mark(streams[id], before, write, notified)
  }

  predicate Reads(e: Event) {
    e.FetchPeers? || e.FetchRules? || e.Push? || e.Receive?
  }

  /** One step of the loop that reads the store and sends what it read. */
  function Reading(t: Stream, store: Store, e: Event): Stream
    requires Reads(e)
  {
    match e
    case FetchPeers(_) =>
      if !t.pc.ReadingPeers? then t else t.(pc := ReadingRules(PeersOf(store, t.account)), missed := {}, owed := false)
    case FetchRules(_) =>
      if !t.pc.ReadingRules? then t else t.(pc := Sending(View(t.pc.peers, RulesOf(store, t.account))))
    case Push(_) => if !t.pc.Sending? then t else t.(pc := Waiting, sent := Some(t.pc.view))
    case Receive(_) => if !t.pc.Waiting? || !t.token then t else t.(pc := ReadingPeers, token := false)
  }

  function StreamStep(s: State, e: Event): State
    requires (Reads(e) || e.Register? || e.Close?) && Active(s, e.id)
  {
    var t := s.streams[e.id];
    match e
    case Register(id) =>
      if !t.pc.Connecting? || !WriteLockFree(s) then s
      else s.(subs := s.subs[t.key := id], streams := s.streams[id := t.(pc := ReadingPeers, token := false)])
    case Close(id) =>
      // unregisterSub deletes whatever is registered under the key.
      if !WriteLockFree(s) then s
      else s.(subs := if t.pc.Connecting? then s.subs else s.subs - {t.key},
              streams := s.streams[id := t.(open := false)])
    case _ => s.(streams := s.streams[e.id := Reading(t, s.store, e)])
  }

  function Offer(s: State, account: Account, key: Key): map<StreamId, Stream> {
    if key in s.subs && s.subs[key] in s.streams && s.streams[s.subs[key]].account == account
    then s.streams[s.subs[key] := s.streams[s.subs[key]].(token := true)]
    else s.streams
  }

  function Step(s: State, e: Event): State {
    match e
    case Connect(id, key) =>
      if id in s.streams || key !in s.store.peers then s
      else s.(streams := s.streams[id := Stream(key, s.store.peers[key].account, true, false, Connecting, None, {}, false)])
    case Save(w, a, write) =>
      if w in s.writers && s.writers[w] != Saved(a) then s
      else
        s.(store := Apply(s.store, write), writers := s.writers[w := Saved(a)],
           streams := MarkAll(s.streams, s.store, write, Some(a)))
    case SaveSilently(write) =>
      s.(store := Apply(s.store, write), streams := MarkAll(s.streams, s.store, write, None))
    case BeginNotify(w) =>
      if w !in s.writers || !s.writers[w].Saved? then s
      else s.(writers := s.writers[w := Notifying(s.writers[w].account, s.subs.Keys)])
    case NotifyOne(w, key) =>
      if w !in s.writers || !s.writers[w].Notifying? || key !in s.writers[w].todo then s
      else
        var n := s.writers[w];
        s.(writers := s.writers[w := n.(todo := n.todo - {key})], streams := Offer(s, n.account, key))
    case EndNotify(w) =>
      if w !in s.writers || !s.writers[w].Notifying? || s.writers[w].todo != {} then s
      else s.(writers := s.writers - {w})
    case _ => if Active(s, e.id) then StreamStep(s, e) else s
  }

  function Run(s: State, es: seq<Event>): State {
    if es == [] then s else Step(Run(s, es[..|es| - 1]), es[|es| - 1])
  }

  // ---- No lost update ------------------------------------------------------------

  predicate Subscribed(s: State, id: StreamId) {
    Active(s, id) && s.streams[id].key in s.subs && s.subs[s.streams[id].key] == id
  }

  /** Writer `w` has saved for the account and has still to reach the key. */
  predicate WillReach(s: State, w: WriterId, account: Account, key: Key) {
    w in s.writers && s.writers[w].account == account && (s.writers[w].Notifying? ==> key in s.writers[w].todo)
  }

  ghost predicate Pending(s: State, id: StreamId)
    requires id in s.streams
  {
    s.streams[id].token || exists w :: WillReach(s, w, s.streams[id].account, s.streams[id].key)
  }

  ghost predicate Quiet(s: State, account: Account) {
    forall w :: w in s.writers ==> s.writers[w].account != account
  }

  /** As far as the stream has read, its entry is `now`. */
  predicate Has(t: Stream, x: Item, now: Option<Record>) {
    match t.pc
    case Connecting => true
    case ReadingPeers => true
    case ReadingRules(p) => x.RuleItem? || PeerIn(p, x.key) == now
    case Sending(v) => In(v, x) == now
    case Waiting => t.sent.Some? && In(t.sent.value, x) == now
  }

  /** The entry as read so far is current, or a wake-up is on its way. */
  ghost predicate Fresh(s: State, id: StreamId, x: Item)
    requires id in s.streams
  {
    var t := s.streams[id];
    Has(t, x, In(ViewOf(s.store, t.account), x)) || Pending(s, id)
  }

  /** Every entry of the table leads to a stream of that key. */
  predicate KeyedAt(s: State, k: Key) {
    k in s.subs ==> s.subs[k] in s.streams && s.streams[s.subs[k]].key == k
  }

  ghost predicate TableKeyed(s: State) {
    forall k :: KeyedAt(s, k)
  }

  /** A subscribed stream is fresh in every entry it did not miss. */
  ghost predicate FreshAt(s: State, id: StreamId, x: Item) {
    Subscribed(s, id) && x !in s.streams[id].missed ==> Fresh(s, id, x)
  }

  /** A subscribed stream that is owed an update will be woken, or is about to read. */
  ghost predicate OwedAt(s: State, id: StreamId) {
    Subscribed(s, id) && s.streams[id].owed ==> s.streams[id].pc.ReadingPeers? || Pending(s, id)
  }

  predicate SentAt(s: State, id: StreamId) {
    id in s.streams && s.streams[id].pc.Waiting? ==> s.streams[id].sent.Some?
  }

  ghost predicate InvAt(s: State, id: StreamId, x: Item) {
    SentAt(s, id) && OwedAt(s, id) && FreshAt(s, id, x)
  }

  ghost predicate Inv(s: State) {
    TableKeyed(s) && forall id, x :: InvAt(s, id, x)
  }

  lemma SavedAt(s: State, e: Event, id: StreamId)
    requires (e.Save? || e.SaveSilently?) && id in s.streams && Step(s, e) != s
    ensures id in Step(s, e).streams && Step(s, e).store == Apply(s.store, e.write) && Step(s, e).subs == s.subs
    ensures Step(s, e).streams[id] == Mark(s.streams[id], s.store, e.write, if e.Save? then Some(e.notify) else None)
    ensures Pending(s, id) ==> Pending(Step(s, e), id)
    ensures e.Save? && s.streams[id].account == e.notify ==> Pending(Step(s, e), id)
  {
    PendingSurvivesSave(s, e, id);
  }

  /** An entry that a write does not mark as missed is read as it is now, if it was. */
  lemma MarkKeeps(t: Stream, before: Store, write: Write, notified: Option<Account>, x: Item)
    requires notified != Some(t.account) && x !in Mark(t, before, write, notified).missed
    ensures x !in t.missed
    ensures Has(t, x, In(ViewOf(before, t.account), x))
      ==> Has(Mark(t, before, write, notified), x, In(ViewOf(Apply(before, write), t.account), x))
  {
    if x != Touched(write) {
      ApplyTouchesOne(before, write, t.account, x);
    }
  }

  lemma MarkedKeepsAt(s: State, s': State, write: Write, notified: Option<Account>, id: StreamId, x: Item)
    requires InvAt(s, id, x) && id in s.streams && id in s'.streams
    requires s'.store == Apply(s.store, write) && s'.subs == s.subs
    requires s'.streams[id] == Mark(s.streams[id], s.store, write, notified)
    requires Pending(s, id) || notified == Some(s.streams[id].account) ==> Pending(s', id)
    ensures InvAt(s', id, x)
  {
    var t := s.streams[id];
    if notified != Some(t.account) && x !in Mark(t, s.store, write, notified).missed {
      MarkKeeps(t, s.store, write, notified, x);
    }
  }

  lemma SaveKeepsAt(s: State, e: Event, id: StreamId, x: Item)
    requires InvAt(s, id, x) && (e.Save? || e.SaveSilently?)
    ensures InvAt(Step(s, e), id, x)
  {
    if Step(s, e) != s && id in s.streams {
      SavedAt(s, e, id);
      MarkedKeepsAt(s, Step(s, e), e.write, if e.Save? then Some(e.notify) else None, id, x);
    }
  }

  lemma PendingSurvivesSave(s: State, e: Event, id: StreamId)
    requires (e.Save? || e.SaveSilently?) && id in s.streams
    requires Step(s, e) != s
    ensures Pending(s, id) ==> Pending(Step(s, e), id)
    ensures e.Save? && s.streams[id].account == e.notify ==> Pending(Step(s, e), id)
  {
    var s' := Step(s, e);
    var t := s.streams[id];
    if e.Save? && t.account == e.notify {
      assert WillReach(s', e.w, t.account, t.key);
    } else if w :| WillReach(s, w, t.account, t.key) {
      assert WillReach(s', w, t.account, t.key);
    }
  }

  /** A step of a notifying writer reaches a subscribed stream or leaves it to be reached,
      and changes nothing else about it. */
  lemma NotifiedAt(s: State, e: Event, id: StreamId)
    requires (e.BeginNotify? || e.NotifyOne? || e.EndNotify?) && id in s.streams
    ensures var s' := Step(s, e);
      && s'.store == s.store && s'.subs == s.subs && id in s'.streams
      && s'.streams[id] == s.streams[id].(token := s'.streams[id].token)
      && (Subscribed(s, id) && Pending(s, id) ==> Pending(s', id))
  {
    var s', t := Step(s, e), s.streams[id];
    if w :| Subscribed(s, id) && WillReach(s, w, t.account, t.key) {
      if e.NotifyOne? && e.w == w && e.key == t.key {
        assert s' != s ==> s'.streams[id].token;
      } else {
        assert WillReach(s', w, t.account, t.key);
      }
    }
  }

  lemma NotifyKeepsAt(s: State, e: Event, id: StreamId, x: Item)
    requires InvAt(s, id, x) && (e.BeginNotify? || e.NotifyOne? || e.EndNotify?)
    ensures InvAt(Step(s, e), id, x)
  {
    if id in s.streams {
      NotifiedAt(s, e, id);
    }
  }

  /** A step of the loop keeps what was current, and what it forgets it reads again. */
  lemma ReadingKeeps(t: Stream, store: Store, e: Event, x: Item)
    requires Reads(e)
    ensures var u, now := Reading(t, store, e), In(ViewOf(store, t.account), x);
      && u.key == t.key && u.account == t.account && u.open == t.open
      && (Has(t, x, now) ==> Has(u, x, now)) && (x !in u.missed ==> x !in t.missed || Has(u, x, now))
      && (u.owed ==> t.owed && (t.pc.ReadingPeers? ==> u.pc.ReadingPeers?))
      && (u.token == t.token || u.pc.ReadingPeers?)
      && ((t.pc.Waiting? ==> t.sent.Some?) ==> u.pc.Waiting? ==> u.sent.Some?)
  {
  }

  lemma StreamKeepsAt(s: State, e: Event, id: StreamId, x: Item)
    requires InvAt(s, id, x) && Reads(e)
    ensures InvAt(Step(s, e), id, x)
  {
    if id in s.streams && e.id == id && Active(s, id) {
      ReadingKeeps(s.streams[id], s.store, e, x);
    }
    if id in s.streams {
      PendingKept(s, Step(s, e), id);
    }
  }

  lemma SessionKeepsAt(s: State, e: Event, id: StreamId, x: Item)
    requires InvAt(s, id, x) && (e.Connect? || e.Register? || e.Close?)
    ensures InvAt(Step(s, e), id, x)
  {
    var s' := Step(s, e);
    if Subscribed(s', id) && id in s.streams && s'.streams[id] == s.streams[id] {
      assert Subscribed(s, id);
      PendingKept(s, s', id);
    }
  }

  lemma StepKeepsKeyedAt(s: State, e: Event, k: Key)
    requires KeyedAt(s, k)
    ensures KeyedAt(Step(s, e), k)
  {
  }

  lemma StepKeepsKeyed(s: State, e: Event)
    requires TableKeyed(s)
    ensures TableKeyed(Step(s, e))
  {
    forall k
      ensures KeyedAt(Step(s, e), k)
    {
      assert KeyedAt(s, k);
      StepKeepsKeyedAt(s, e, k);
    }
  }

  lemma StepKeepsInv(s: State, e: Event)
    requires Inv(s)
    ensures Inv(Step(s, e))
  {
    StepKeepsKeyed(s, e);
    forall id, x
      ensures InvAt(Step(s, e), id, x)
    {
      assert InvAt(s, id, x);
      match e
      case Save(_, _, _) => SaveKeepsAt(s, e, id, x);
      case SaveSilently(_) => SaveKeepsAt(s, e, id, x);
      case BeginNotify(_) => NotifyKeepsAt(s, e, id, x);
      case NotifyOne(_, _) => NotifyKeepsAt(s, e, id, x);
      case EndNotify(_) => NotifyKeepsAt(s, e, id, x);
      case Connect(_, _) => SessionKeepsAt(s, e, id, x);
      case Register(_) => SessionKeepsAt(s, e, id, x);
      case Close(_) => SessionKeepsAt(s, e, id, x);
      case _ => StreamKeepsAt(s, e, id, x);
    }
  }

  lemma PendingKept(s: State, s': State, id: StreamId)
    requires id in s.streams && id in s'.streams && s'.writers == s.writers
    requires s'.streams[id].account == s.streams[id].account && s'.streams[id].key == s.streams[id].key
    requires s.streams[id].token ==> s'.streams[id].token || s'.streams[id].pc.ReadingPeers?
    ensures Pending(s, id) ==> Pending(s', id) || s'.streams[id].pc.ReadingPeers?
  {
    var t := s.streams[id];
    if w :| WillReach(s, w, t.account, t.key) {
      assert WillReach(s', w, t.account, t.key);
    }
  }

  lemma {:induction false} RunKeepsInv(store: Store, es: seq<Event>)
    ensures Inv(Run(Init(store), es))
  {
    if es != [] {
      RunKeepsInv(store, es[..|es| - 1]);
      StepKeepsInv(Run(Init(store), es[..|es| - 1]), es[|es| - 1]);
    }
  }

  /** The stream is the registered one of its key and waits on an empty channel, and no
      writer stands between its save and the end of its notification for the account. */
  ghost predicate Settled(s: State, id: StreamId) {
    Subscribed(s, id) && s.streams[id].pc == Waiting && !s.streams[id].token && Quiet(s, s.streams[id].account)
  }

  /** No notified write is lost: in every run, whatever silent writes happen, no write
      that notifies the account came after a settled stream began to read what it was
      sent. */
  lemma {:induction false} NoLostNotification(store: Store, es: seq<Event>, id: StreamId)
    requires Settled(Run(Init(store), es), id)
    ensures !Run(Init(store), es).streams[id].owed
  {
    RunKeepsInv(store, es);
    assert InvAt(Run(Init(store), es), id, PeerItem(""));
  }

  /** No update is lost: in every run, every entry that a settled stream was sent is
      current, except those whose last change came from a silent write. */
  lemma {:induction false} NoLostUpdate(store: Store, es: seq<Event>, id: StreamId, x: Item)
    requires Settled(Run(Init(store), es), id)
    ensures var s := Run(Init(store), es);
      var t := s.streams[id];
      t.sent.Some? && (x !in t.missed ==> In(t.sent.value, x) == In(ViewOf(s.store, t.account), x))
  {
    RunKeepsInv(store, es);
    assert InvAt(Run(Init(store), es), id, x);
  }

  /** A write notifies every account whose view it changes. */
  ghost predicate Announced(s: State, e: Event) {
    e.Save? || e.SaveSilently? ==>
      forall a :: ViewOf(Apply(s.store, e.write), a) != ViewOf(s.store, a) ==> e.Save? && e.notify == a
  }

  ghost predicate AlwaysAnnounced(store: Store, es: seq<Event>) {
    es != [] ==> AlwaysAnnounced(store, es[..|es| - 1]) && Announced(Run(Init(store), es[..|es| - 1]), es[|es| - 1])
  }

  predicate NothingMissed(s: State, id: StreamId) {
    id in s.streams ==> s.streams[id].missed == {}
  }

  lemma AnnouncedNotMissed(s: State, e: Event, id: StreamId)
    requires Announced(s, e) && NothingMissed(s, id)
    ensures NothingMissed(Step(s, e), id)
  {
    if (e.Save? || e.SaveSilently?) && id in s.streams && Step(s, e) != s {
      SavedAt(s, e, id);
    }
  }

  lemma {:induction false} NeverMissed(store: Store, es: seq<Event>, id: StreamId)
    requires AlwaysAnnounced(store, es)
    ensures NothingMissed(Run(Init(store), es), id)
  {
    if es != [] {
      NeverMissed(store, es[..|es| - 1], id);
      AnnouncedNotMissed(Run(Init(store), es[..|es| - 1]), es[|es| - 1], id);
    }
  }

  /** In every run in which a write notifies every account whose view it changes, a settled
      stream was sent exactly the current peers and rules. */
  lemma {:induction false} SettledIsCurrent(store: Store, es: seq<Event>, id: StreamId)
    requires AlwaysAnnounced(store, es) && Settled(Run(Init(store), es), id)
    ensures var s := Run(Init(store), es);
      s.streams[id].sent == Some(ViewOf(s.store, s.streams[id].account))
  {
    var s := Run(Init(store), es);
    var t := s.streams[id];
    NeverMissed(store, es, id);
    NoLostUpdate(store, es, id, PeerItem(""));
    forall x
      ensures In(t.sent.value, x) == In(ViewOf(s.store, t.account), x)
    {
      NoLostUpdate(store, es, id, x);
    }
    SameView(t.sent.value, ViewOf(s.store, t.account));
  }

  /** A save of fields that no message carries, such as the time a peer was seen, is never
      missed by anyone. */
  lemma UnsentFieldsNotMissed(s: State, p: Peer, id: StreamId)
    requires p.key in s.store.peers && AsSent(p) == AsSent(s.store.peers[p.key]) && id in s.streams
    ensures var s' := Step(s, SaveSilently(PutPeer(p))); id in s'.streams && s'.streams[id] == s.streams[id]
  {
    var t := s.streams[id];
    assert p.account == AsSent(p).account == s.store.peers[p.key].account;
    assert In(ViewOf(s.store, t.account), PeerItem(p.key)) == In(ViewOf(Apply(s.store, PutPeer(p)), t.account), PeerItem(p.key));
  }

  // ---- Which streams are served --------------------------------------------------

  predicate Registered(s: State, id: StreamId) {
    Active(s, id) && !s.streams[id].pc.Connecting?
  }

  /** At most one open registered stream per key. */
  ghost predicate Exclusive(s: State) {
    forall i, j :: Apart(s, i, j)
  }

  /** The streams `i` and `j` are not both open on one key. */
  predicate Apart(s: State, i: StreamId, j: StreamId) {
    Registered(s, i) && Registered(s, j) && s.streams[i].key == s.streams[j].key ==> i == j
  }

  predicate ServedAt(s: State, id: StreamId) {
    Registered(s, id) ==> Subscribed(s, id)
  }

  lemma StepKeepsServed(s: State, e: Event, id: StreamId)
    requires ServedAt(s, id)
    requires (e.Register? || e.Close?) ==> Apart(s, id, e.id) && Apart(Step(s, e), id, e.id)
    ensures ServedAt(Step(s, e), id)
  {
    var s' := Step(s, e);
    if Registered(s', id) && Registered(s, id) {
      if e.Register? && e.id != id && Active(s, e.id) {
        assert s' != s ==> Registered(s', e.id);
      }
      if e.Close? && e.id != id && Active(s, e.id) {
        assert !s.streams[e.id].pc.Connecting? ==> Registered(s, e.id);
      }
    }
  }

  ghost predicate AlwaysExclusive(store: Store, es: seq<Event>) {
    Exclusive(Run(Init(store), es)) && (es != [] ==> AlwaysExclusive(store, es[..|es| - 1]))
  }

  /** When streams of one key never overlap, every open stream is the registered one,
      so `NoLostUpdate` covers them all. */
  lemma {:induction false} WithoutOverlapAllServed(store: Store, es: seq<Event>, id: StreamId)
    requires AlwaysExclusive(store, es)
    ensures Registered(Run(Init(store), es), id) ==> Subscribed(Run(Init(store), es), id)
  {
    if es != [] {
      var s, e := Run(Init(store), es[..|es| - 1]), es[|es| - 1];
      WithoutOverlapAllServed(store, es[..|es| - 1], id);
      assert Exclusive(s) && Exclusive(Step(s, e));
      if e.Register? || e.Close? {
        assert Apart(s, id, e.id) && Apart(Step(s, e), id, e.id);
      }
      StepKeepsServed(s, e, id);
    }
  }

  /** The events by which writer `w` reaches the keys in the order given. */
  function Walk(w: WriterId, keys: seq<Key>): seq<Event> {
    seq(|keys|, i requires 0 <= i < |keys| => NotifyOne(w, keys[i]))
  }

  /** Stream `id` got a token if it is registered for the account among the keys, and is
      otherwise as it was. */
  predicate WalkedAt(s: State, s': State, account: Account, keys: seq<Key>, id: StreamId)
    requires id in s.streams
  {
    var t := s.streams[id];
    id in s'.streams && s'.streams[id] == t.(token := t.token
      || (t.account == account && t.key in keys && t.key in s.subs && s.subs[t.key] == id))
  }

  /** From `s` to `s'` writer `w` put a token in the channel of every registered stream
      of the account among the keys, and did nothing else. */
  ghost predicate Walked(s: State, s': State, w: WriterId, account: Account, keys: seq<Key>) {
    && s'.store == s.store && s'.subs == s.subs && s'.streams.Keys == s.streams.Keys
    && s'.writers == s.writers[w := Notifying(account, s.subs.Keys - set k | k in keys)]
    && forall id :: id in s.streams ==> WalkedAt(s, s', account, keys, id)
  }

  lemma WalkOneWriters(s: State, m: State, w: WriterId, account: Account, keys: seq<Key>, key: Key)
    requires Walked(s, m, w, account, keys)
    ensures Step(m, NotifyOne(w, key)).writers
         == s.writers[w := Notifying(account, s.subs.Keys - set k | k in keys + [key])]
    ensures key !in s.subs || key in keys ==> Step(m, NotifyOne(w, key)) == m
    ensures key in s.subs && key !in keys ==> Step(m, NotifyOne(w, key)).streams == Offer(m, account, key)
  {
    var before, after := s.subs.Keys - (set k | k in keys), s.subs.Keys - (set k | k in keys + [key]);
    assert after == before - {key};
    assert m.writers[w] == Notifying(account, before);
    assert key !in before ==> after == before;
  }

  lemma OfferAt(m: State, account: Account, key: Key, id: StreamId)
    requires KeyedAt(m, key) && id in m.streams
    ensures id in Offer(m, account, key)
    ensures Offer(m, account, key)[id] == m.streams[id].(token := m.streams[id].token
      || (key in m.subs && m.subs[key] == id && m.streams[id].account == account && m.streams[id].key == key))
  {
  }

  lemma WalkOneAt(s: State, m: State, m': State, account: Account, keys: seq<Key>, key: Key, id: StreamId)
    requires id in s.streams && m.subs == s.subs && KeyedAt(m, key) && WalkedAt(s, m, account, keys, id)
    requires m'.streams == if key in s.subs && key !in keys then Offer(m, account, key) else m.streams
    ensures WalkedAt(s, m', account, keys + [key], id)
  {
    OfferAt(m, account, key, id);
  }

  lemma WalkedKeyed(s: State, m: State, w: WriterId, account: Account, keys: seq<Key>)
    requires TableKeyed(s) && Walked(s, m, w, account, keys)
    ensures TableKeyed(m)
  {
    forall k
      ensures KeyedAt(m, k)
    {
      assert KeyedAt(s, k);
      if k in s.subs {
        assert WalkedAt(s, m, account, keys, s.subs[k]);
      }
    }
  }

  lemma WalkOne(s: State, m: State, w: WriterId, account: Account, keys: seq<Key>, key: Key)
    requires TableKeyed(s) && Walked(s, m, w, account, keys)
    ensures Walked(s, Step(m, NotifyOne(w, key)), w, account, keys + [key])
  {
    WalkOneWriters(s, m, w, account, keys, key);
    WalkedKeyed(s, m, w, account, keys);
    var m' := Step(m, NotifyOne(w, key));
    forall id | id in s.streams
      ensures WalkedAt(s, m', account, keys + [key], id)
    {
      assert WalkedAt(s, m, account, keys, id) && KeyedAt(m, key);
      WalkOneAt(s, m, m', account, keys, key, id);
    }
  }

  lemma {:induction false} WalkReaches(s: State, w: WriterId, account: Account, keys: seq<Key>)
    requires w in s.writers && s.writers[w] == Notifying(account, s.subs.Keys) && TableKeyed(s)
    ensures Walked(s, Run(s, Walk(w, keys)), w, account, keys)
  {
    if keys == [] {
      assert s.subs.Keys - (set k | k in keys) == s.subs.Keys;
      assert s.writers == s.writers[w := Notifying(account, s.subs.Keys)];
    } else {
      var front, last := keys[..|keys| - 1], keys[|keys| - 1];
      WalkReaches(s, w, account, front);
      assert Walk(w, keys)[..|keys| - 1] == Walk(w, front);
      WalkOne(s, Run(s, Walk(w, front)), w, account, front, last);
      assert front + [last] == keys;
    }
  }

  /** One complete save-and-notify as a lone writer performs it. */
  function Update(w: WriterId, account: Account, write: Write, keys: seq<Key>): seq<Event> {
    [Save(w, account, write), BeginNotify(w)] + Walk(w, keys) + [EndNotify(w)]
  }

  lemma {:induction false} ThreeSteps(s: State, es: seq<Event>)
    requires |es| == 3
    ensures Run(s, es) == Step(Step(Step(s, es[0]), es[1]), es[2])
  {
    assert es[..2][..1] == es[..1] && es[..1][..0] == [];
    assert Run(s, es[..1]) == Step(Run(s, []), es[0]);
    assert Run(s, es[..2]) == Step(Run(s, es[..1]), es[1]);
  }

  lemma {:induction false} FourSteps(s: State, es: seq<Event>)
    requires |es| == 4
    ensures Run(s, es) == Step(Step(Step(Step(s, es[0]), es[1]), es[2]), es[3])
  {
    ThreeSteps(s, es[..3]);
  }

  lemma {:induction false} RunConcat(s: State, a: seq<Event>, b: seq<Event>)
    ensures Run(s, a + b) == Run(Run(s, a), b)
  {
    if b == [] {
      assert a + b == a;
    } else {
      RunConcat(s, a, b[..|b| - 1]);
      ConcatFront(a, b);
    }
  }

  /** Registration is exactly what decides whether a stream hears about an update. Take
      any reachable state and any notifying write for the stream's account: once the
      writer is done, the stream holds a token if it held one or is registered, and not
      otherwise. Nothing else about it changes but its history, so an open stream that is
      not registered, such as the survivor of an overlapping reconnect, is left with what
      it was sent. */
  lemma {:induction false} WokenIffSubscribed(
    store: Store, es: seq<Event>, id: StreamId, w: WriterId, write: Write, keys: seq<Key>)
    requires var s := Run(Init(store), es);
      Active(s, id) && w !in s.writers && (set k | k in keys) == s.subs.Keys
    ensures var s := Run(Init(store), es);
      var t, s' := s.streams[id], Run(s, Update(w, s.streams[id].account, write, keys));
      && s'.writers == s.writers && s'.store == Apply(s.store, write) && Active(s', id)
      && (s'.streams[id].token <==> t.token || Subscribed(s, id))
      && s'.streams[id].pc == t.pc && s'.streams[id].sent == t.sent
  {
    RunKeepsInv(store, es);
    UpdateWakes(Run(Init(store), es), id, w, write, keys);
  }

  lemma {:induction false} UpdateWakes(s: State, id: StreamId, w: WriterId, write: Write, keys: seq<Key>)
    requires TableKeyed(s) && Active(s, id) && w !in s.writers && (set k | k in keys) == s.subs.Keys
    ensures var t := s.streams[id];
      var s' := Run(s, Update(w, t.account, write, keys));
      && s'.writers == s.writers && s'.store == Apply(s.store, write) && id in s'.streams
      && s'.streams[id] == Mark(t, s.store, write, Some(t.account)).(token := t.token || Subscribed(s, id))
  {
    var t := s.streams[id];
    var s1 := Step(s, Save(w, t.account, write));
    var s2 := Step(s1, BeginNotify(w));
    SaveThenBegin(s, w, t.account, write, id);
    UpdateUnfolds(s, w, t.account, write, keys);
    StepKeepsKeyed(s, Save(w, t.account, write));
    StepKeepsKeyed(s1, BeginNotify(w));
    WalkEnds(s2, w, id, keys);
  }

  /** A complete walk from where the writer has the lock to where it lets go. */
  lemma {:induction false} WalkEnds(s: State, w: WriterId, id: StreamId, keys: seq<Key>)
    requires id in s.streams && (set k | k in keys) == s.subs.Keys && TableKeyed(s)
    requires w in s.writers && s.writers[w] == Notifying(s.streams[id].account, s.subs.Keys)
    ensures var t, s' := s.streams[id], Step(Run(s, Walk(w, keys)), EndNotify(w));
      && s'.store == s.store && s'.writers == s.writers - {w} && id in s'.streams
      && s'.streams[id] == t.(token := t.token || (t.key in s.subs && s.subs[t.key] == id))
  {
    WalkReaches(s, w, s.streams[id].account, keys);
    WalkCovers(s, Run(s, Walk(w, keys)), w, id, keys);
  }

  lemma WalkCovers(s: State, s': State, w: WriterId, id: StreamId, keys: seq<Key>)
    requires id in s.streams && Walked(s, s', w, s.streams[id].account, keys) && (set k | k in keys) == s.subs.Keys
    ensures s'.streams[id] == s.streams[id].(token := s.streams[id].token ||
      (s.streams[id].key in s.subs && s.subs[s.streams[id].key] == id))
    ensures Step(s', EndNotify(w)) == s'.(writers := s'.writers - {w})
  {
    assert WalkedAt(s, s', s.streams[id].account, keys, id);
    assert s.subs.Keys - (set k | k in keys) == {};
  }

  lemma SaveAt(s: State, w: WriterId, account: Account, write: Write, id: StreamId)
    requires w !in s.writers && id in s.streams && s.streams[id].account == account
    ensures var s' := Step(s, Save(w, account, write));
      && s'.store == Apply(s.store, write) && s'.subs == s.subs && s'.writers == s.writers[w := Saved(account)]
      && id in s'.streams && s'.streams[id] == Mark(s.streams[id], s.store, write, Some(account))
  {
  }

  lemma SaveThenBegin(s: State, w: WriterId, account: Account, write: Write, id: StreamId)
    requires w !in s.writers && id in s.streams && s.streams[id].account == account
    ensures var s' := Step(Step(s, Save(w, account, write)), BeginNotify(w));
      && s'.store == Apply(s.store, write) && s'.subs == s.subs && id in s'.streams
      && s'.streams[id] == Mark(s.streams[id], s.store, write, Some(account))
      && s'.writers == s.writers[w := Notifying(account, s.subs.Keys)]
  {
    SaveAt(s, w, account, write, id);
    var s1 := Step(s, Save(w, account, write));
    assert Step(s1, BeginNotify(w)) == s1.(writers := s1.writers[w := Notifying(account, s1.subs.Keys)]);
    assert s1.writers[w := Notifying(account, s.subs.Keys)] == s.writers[w := Notifying(account, s.subs.Keys)];
  }

  lemma {:induction false} UpdateUnfolds(s: State, w: WriterId, account: Account, write: Write, keys: seq<Key>)
    ensures Run(s, Update(w, account, write, keys)) ==
            Step(Run(Step(Step(s, Save(w, account, write)), BeginNotify(w)), Walk(w, keys)), EndNotify(w))
  {
    var head := [Save(w, account, write), BeginNotify(w)];
    var body := head + Walk(w, keys);
    assert Update(w, account, write, keys) == body + [EndNotify(w)];
    assert (body + [EndNotify(w)])[..|body|] == body;
    RunConcat(s, head, Walk(w, keys));
    assert head[..1] == [Save(w, account, write)] && head[..1][..0] == [];
    assert Run(s, head[..1]) == Step(Run(s, []), Save(w, account, write));
    assert Run(s, head) == Step(Run(s, head[..1]), BeginNotify(w));
  }

  /** Two streams of one key overlap; the newer one reads and the older one closes. */
  function Overlap(key: Key): seq<Event> {
    [Connect(0, key), Register(0), Connect(1, key), Register(1)]
  }

  function OlderCloses(): seq<Event> {
    [FetchPeers(1), FetchRules(1), Push(1), Close(0)]
  }

  lemma Joins(s: State, id: StreamId, key: Key)
    requires id !in s.streams && key in s.store.peers && s.writers == map[]
    ensures var t := Stream(key, s.store.peers[key].account, true, false, ReadingPeers, None, {}, false);
      Step(Step(s, Connect(id, key)), Register(id)) == s.(subs := s.subs[key := id], streams := s.streams[id := t])
  {
    var t := Stream(key, s.store.peers[key].account, true, false, Connecting, None, {}, false);
    var s1 := s.(streams := s.streams[id := t]);
    assert Step(s, Connect(id, key)) == s1;
    assert s1.streams[id := t.(pc := ReadingPeers)] == s.streams[id := t.(pc := ReadingPeers)];
  }

  lemma OverlapReached(p: Peer)
    ensures var store := Store(map[p.key := p], map[]);
      var t := Stream(p.key, p.account, true, false, ReadingPeers, None, {}, false);
      Run(Init(store), Overlap(p.key)) == State(store, map[p.key := 1], map[0 := t, 1 := t], map[])
  {
    var s := Init(Store(map[p.key := p], map[]));
    var t := Stream(p.key, p.account, true, false, ReadingPeers, None, {}, false);
    FourSteps(s, Overlap(p.key));
    Joins(s, 0, p.key);
    var s2 := State(s.store, map[p.key := 0 as StreamId], map[0 := t], map[]);
    Joins(s2, 1, p.key);
    assert map[p.key := 0 as StreamId][p.key := 1] == map[p.key := 1];
  }

  lemma NewerReads(p: Peer, s: State)
    requires 1 in s.streams && s.streams[1] == Stream(p.key, p.account, true, false, ReadingPeers, None, {}, false)
    ensures Step(Step(Step(s, FetchPeers(1)), FetchRules(1)), Push(1))
      == s.(streams := s.streams[1 := s.streams[1].(pc := Waiting, sent := Some(ViewOf(s.store, p.account)))])
  {
    var t := s.streams[1];
    var s1 := s.(streams := s.streams[1 := t.(pc := ReadingRules(PeersOf(s.store, p.account)))]);
    var s2 := s.(streams := s.streams[1 := t.(pc := Sending(ViewOf(s.store, p.account)))]);
    assert Step(s, FetchPeers(1)) == s1;
    assert s1.streams[1 := s2.streams[1]] == s2.streams;
    assert Step(s1, FetchRules(1)) == s2;
    var t3 := t.(pc := Waiting, sent := Some(ViewOf(s.store, p.account)));
    assert s2.streams[1 := t3] == s.streams[1 := t3];
  }

  lemma {:induction false} OlderClosed(p: Peer, s: State)
    requires var t := Stream(p.key, p.account, true, false, ReadingPeers, None, {}, false);
      s == State(Store(map[p.key := p], map[]), map[p.key := 1], map[0 := t, 1 := t], map[])
    ensures var s' := Run(s, OlderCloses());
      && s'.store == s.store && s'.subs == map[] && s'.writers == map[] && 1 in s'.streams
      && s'.streams[1] == Stream(p.key, p.account, true, false, Waiting, Some(ViewOf(s.store, p.account)), {}, false)
  {
    FourSteps(s, OlderCloses());
    NewerReads(p, s);
    var s3 := Step(Step(Step(s, FetchPeers(1)), FetchRules(1)), Push(1));
    CloseAt(s3, 0);
    assert map[p.key := 1 as StreamId] - {p.key} == map[];
  }

  lemma CloseAt(s: State, id: StreamId)
    requires Active(s, id) && !s.streams[id].pc.Connecting? && WriteLockFree(s)
    ensures Step(s, Close(id))
      == s.(subs := s.subs - {s.streams[id].key}, streams := s.streams[id := s.streams[id].(open := false)])
  {
  }

  /** Why the theorems ask for registration: after an overlapping reconnect and one
      notifying write, the open stream waits on an empty channel with stale data, owed an
      update, although every writer is done. */
  lemma OverlapLosesUpdate(p: Peer, p': Peer)
    requires p'.key == p.key && p'.account == p.account && AsSent(p') != AsSent(p)
    ensures var es := Overlap(p.key) + OlderCloses() + Update(0, p.account, PutPeer(p'), []);
      var s := Run(Init(Store(map[p.key := p], map[])), es);
      && Registered(s, 1) && s.streams[1].pc == Waiting && !s.streams[1].token && s.streams[1].owed
      && s.writers == map[] && s.streams[1].sent != Some(ViewOf(s.store, s.streams[1].account))
  {
    var s0 := Init(Store(map[p.key := p], map[]));
    var s4 := Run(s0, Overlap(p.key));
    var s8 := Run(s4, OlderCloses());
    OverlapReached(p);
    OlderClosed(p, s4);
    UpdateWakes(s8, 1, 0, PutPeer(p'), []);
    RunConcat(s0, Overlap(p.key), OlderCloses());
    RunConcat(s0, Overlap(p.key) + OlderCloses(), Update(0, p.account, PutPeer(p'), []));
    assert PeersOf(s8.store, p.account)[p.key] == AsSent(p);
    assert PeersOf(Apply(s8.store, PutPeer(p')), p.account)[p.key] == AsSent(p');
  }

  // ---- The subscriber table as the server keeps it -------------------------------

  /** `subs` with its channels: `ready` holds the streams whose channel is full. */
  datatype Table = Table(subs: map<Key, StreamId>, account: map<StreamId, Account>, ready: set<StreamId>)

  /** A new channel is empty. */
  function Entered(t: Table, key: Key, id: StreamId, account: Account): Table {
    Table(t.subs[key := id], t.account[id := account], t.ready - {id})
  }

  function Dropped(t: Table, key: Key): Table {
    t.(subs := t.subs - {key})
  }

  /** The streams registered under the keys for the account. */
  function Listeners(t: Table, keys: set<Key>, account: Account): set<StreamId> {
    set k | k in keys && k in t.subs && t.subs[k] in t.account && t.account[t.subs[k]] == account :: t.subs[k]
  }

  function Notified(t: Table, account: Account): Table {
    t.(ready := t.ready + Listeners(t, t.subs.Keys, account))
  }

  class Subscribers {
    var subs: map<Key, StreamId>
    var account: map<StreamId, Account>
    var ready: set<StreamId>

    function Value(): Table
      reads this
    {
      Table(subs, account, ready)
    }

    ghost predicate Valid()
      reads this
    {
      forall k :: k in subs ==> subs[k] in account
    }

    constructor ()
      ensures Valid() && Value() == Table(map[], map[], {})
    {
      subs, account, ready := map[], map[], {};
    }

    method RegisterSub(key: Key, id: StreamId, accountId: Account)
      requires Valid()
      modifies this
      ensures Valid() && Value() == Entered(old(Value()), key, id, accountId)
    {
      subs := subs[key := id];
      account := account[id := accountId];
      ready := ready - {id};
    }

    method UnregisterSub(key: Key)
      requires Valid()
      modifies this
      ensures Valid() && Value() == Dropped(old(Value()), key)
    {
      subs := subs - {key};
    }

    /** Afterwards the full channels are the old ones and those of the account. */
    method NotifyAll(accountId: Account)
      requires Valid()
      modifies this`ready
      ensures Valid() && Value() == Notified(old(Value()), accountId)
    {
      var todo := subs.Keys;
      while todo != {}
        invariant todo <= subs.Keys
        invariant ready == old(ready) + Listeners(old(Value()), subs.Keys - todo, accountId)
      {
        var k :| k in todo;
        assert subs.Keys - (todo - {k}) == subs.Keys - todo + {k};
        todo := todo - {k};
        if account[subs[k]] == accountId {
          ready := ready + {subs[k]};
        }
      }
    }
  }

  /** The table in a state of the machine. */
  function TableOf(s: State): Table {
    Table(s.subs, map id | id in s.streams :: s.streams[id].account, set id | id in s.streams && s.streams[id].token)
  }

  /** Registering is `RegisterSub` on the table. */
  lemma RegisterIsEntered(s: State, id: StreamId)
    requires Active(s, id) && s.streams[id].pc.Connecting? && WriteLockFree(s)
    ensures TableOf(Step(s, Register(id))) == Entered(TableOf(s), s.streams[id].key, id, s.streams[id].account)
  {
    var s', t := Step(s, Register(id)), TableOf(s);
    assert s'.streams == s.streams[id := s.streams[id].(pc := ReadingPeers, token := false)];
    assert TableOf(s').account == t.account[id := s.streams[id].account];
    assert TableOf(s').ready == t.ready - {id};
  }

  /** The end of a registered stream is `UnregisterSub` on the table. */
  lemma CloseIsDropped(s: State, id: StreamId)
    requires Active(s, id) && !s.streams[id].pc.Connecting? && WriteLockFree(s)
    ensures TableOf(Step(s, Close(id))) == Dropped(TableOf(s), s.streams[id].key)
  {
    var s', t := Step(s, Close(id)), TableOf(s);
    assert s'.streams == s.streams[id := s.streams[id].(open := false)];
    assert TableOf(s').account == t.account && TableOf(s').ready == t.ready;
  }

  /** Taking the lock, reaching every key in any order and letting go is `NotifyAll` on
      the table, and changes neither the store nor another writer. */
  lemma WalkIsNotified(s: State, w: WriterId, account: Account, keys: seq<Key>)
    requires TableKeyed(s) && w in s.writers && s.writers[w] == Saved(account) && (set k | k in keys) == s.subs.Keys
    ensures var s' := Step(Run(Step(s, BeginNotify(w)), Walk(w, keys)), EndNotify(w));
      TableOf(s') == Notified(TableOf(s), account) && s'.store == s.store && s'.writers == s.writers - {w}
  {
    var s2 := Step(s, BeginNotify(w));
    StepKeepsKeyed(s, BeginNotify(w));
    WalkReaches(s2, w, account, keys);
    var s3 := Run(s2, Walk(w, keys));
    WalkedTable(s2, s3, w, account, keys);
    assert s3.writers - {w} == s.writers - {w};
  }

  lemma WalkedTable(s: State, s': State, w: WriterId, account: Account, keys: seq<Key>)
    requires TableKeyed(s) && Walked(s, s', w, account, keys) && (set k | k in keys) == s.subs.Keys
    ensures TableOf(s') == Notified(TableOf(s), account)
    ensures w in s'.writers && s'.writers[w] == Notifying(account, {})
  {
    assert s.subs.Keys - (set k | k in keys) == {};
    var t := TableOf(s);
    assert forall id :: id in s.streams ==> WalkedAt(s, s', account, keys, id);
    forall id
      ensures id in TableOf(s').ready <==> id in Notified(t, account).ready
    {
      if id in Listeners(t, t.subs.Keys, account) {
        var k :| k in t.subs && t.subs[k] == id;
        assert KeyedAt(s, k) && k in keys;
      }
      if id in s.streams && s'.streams[id].token && !s.streams[id].token {
        assert t.subs[s.streams[id].key] == id;
      }
    }
  }
}
