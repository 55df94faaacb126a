/** The Windows agent's takeover of the system's DNS servers, and the backup file that
    lets a later start put the original ones back. */
module DnsTakeover {
  import opened Domain

  type Servers = seq<string>
  const LOOPBACK: Servers := ["127.0.0.1"]

  /** `adapters` and `backup` outlive the process; `relay` does not. */
  datatype State = State(adapters: map<string, Servers>, backup: Option<map<string, Servers>>, relay: bool)

  /** What the system does to one operation. `done` are the adapters it gets to before a
      crash (all of them if it does not crash), `failing` those whose setting fails,
      `missing` those a lookup by name does not find. */
  datatype World = World(
    done: set<string>, failing: set<string>, missing: set<string>,
    relayStarts: bool, dirMade: bool, queried: bool, written: bool, listed: bool, removed: bool)

  /** Every adapter the operation gets to, and can set, has its new servers. */
  function SetEach(adapters: map<string, Servers>, target: map<string, Servers>, w: World): map<string, Servers> {
    map a | a in adapters :: if a in target && a in w.done && a !in w.failing then target[a] else adapters[a]
  }

  lemma SetOneMore(adapters: map<string, Servers>, target: map<string, Servers>, w: World, todo: set<string>, a: string)
    requires a in todo && a in adapters
    ensures var now := SetEach(adapters, target, w.(done := adapters.Keys - todo));
      SetEach(adapters, target, w.(done := adapters.Keys - (todo - {a})))
      == if a in target && a !in w.failing then now[a := target[a]] else now
  {
  }

  predicate Finishes(s: State, w: World) {
    s.adapters.Keys <= w.done
  }

  function Takeover(adapters: map<string, Servers>): map<string, Servers> {
    map a | a in adapters :: LOOPBACK
  }

  function ApplyGlobal(s: State, w: World): State {
    if !w.relayStarts then s
    else if !w.dirMade then s.(relay := true)
    else if s.backup.None? && !(w.queried && w.written) then s.(relay := true)
    else
      var kept := if s.backup.None? then Some(s.adapters) else s.backup;
      if !w.listed then State(s.adapters, kept, true)
      else State(SetEach(s.adapters, Takeover(s.adapters), w), kept, Finishes(s, w))
  }

  /** The adapters a restore finds by name. One it does not find counts as gone. */
  function Found(s: State, w: World): set<string>
    requires s.backup.Some?
  {
    s.backup.value.Keys * s.adapters.Keys - w.missing
  }

  function Restore(s: State, w: World): map<string, Servers>
    requires s.backup.Some?
  {
    SetEach(s.adapters, s.backup.value - w.missing, w)
  }

  predicate AllRestored(s: State, w: World)
    requires s.backup.Some?
  {
    Finishes(s, w) && Found(s, w) !! w.failing
  }

  /** Adapters and success with the saved adapters in `todo` still to come. */
  ghost function Progress(s: State, w: World, todo: set<string>): (map<string, Servers>, bool)
    requires s.backup.Some?
  {
    (SetEach(s.adapters, s.backup.value - w.missing, w.(done := s.adapters.Keys - todo)), Found(s, w) - todo !! w.failing)
  }

  lemma ProgressStep(s: State, w: World, todo: set<string>, a: string)
    requires s.backup.Some? && a in todo && todo <= s.backup.value.Keys
    ensures var (now, ok) := Progress(s, w, todo);
      Progress(s, w, todo - {a})
      == if a !in s.adapters || a in w.missing then (now, ok)
         else if a in w.failing then (now, false)
         else (now[a := s.backup.value[a]], ok)
  {
    if a in s.adapters {
      SetOneMore(s.adapters, s.backup.value - w.missing, w, todo, a);
    } else {
      assert s.adapters.Keys - (todo - {a}) == s.adapters.Keys - todo;
    }
    assert Found(s, w) - (todo - {a}) == Found(s, w) - todo + if a in Found(s, w) then {a} else {};
  }

  lemma ProgressEnds(s: State, w: World)
    requires s.backup.Some? && Finishes(s, w)
    ensures Progress(s, w, s.backup.value.Keys) == (s.adapters, true)
    ensures Progress(s, w, {}) == (Restore(s, w), AllRestored(s, w))
  {
    assert Found(s, w) - {} == Found(s, w) && Found(s, w) - s.backup.value.Keys == {};
    assert Progress(s, w, s.backup.value.Keys).0 == s.adapters;
    assert Progress(s, w, {}).0 == Restore(s, w);
  }

  function Recover(s: State, w: World): State {
    if s.backup.None? then s else s.(adapters := Restore(s, w), relay := s.relay && Finishes(s, w))
  }

  function RevertGlobal(s: State, w: World): State {
    if s.backup.None? then s.(relay := false)
    else State(Restore(s, w), if AllRestored(s, w) && w.removed then None else s.backup, false)
  }

  // ---- The agent's own form ------------------------------------------------------

  class Adapters {
    var adapters: map<string, Servers>
    var backup: Option<map<string, Servers>>
    var relay: bool

    function Value(): State
      reads this
    {
      State(adapters, backup, relay)
    }

    /** Runs to its end: every adapter is tried. */
    method Apply(w: World)
      requires adapters.Keys <= w.done
      modifies this
      ensures Value() == ApplyGlobal(old(Value()), w)
    {
      if !w.relayStarts {
        return;
      }
      relay := true;
      if !w.dirMade {
        return;
      }
      if backup.None? {
        if !w.queried || !w.written {
          return;
        }
        backup := Some(adapters);
      }
      if !w.listed {
        return;
      }
      var todo := adapters.Keys;
      ghost var before := adapters;
      while todo != {}
        invariant backup == if old(backup).None? then Some(old(adapters)) else old(backup)
        invariant relay && todo <= before.Keys
        invariant adapters == SetEach(before, Takeover(before), w.(done := before.Keys - todo))
      {
        var a :| a in todo;
        SetOneMore(before, Takeover(before), w, todo, a);
        if a !in w.failing {
          adapters := adapters[a := LOOPBACK];
        }
        todo := todo - {a};
      }
      assert adapters == SetEach(before, Takeover(before), w);
    }

    /** Restores what it can and says whether no adapter that was found failed. */
    method RestoreBackup(w: World) returns (allOK: bool)
      requires backup.Some? && adapters.Keys <= w.done
      modifies this`adapters
      ensures adapters == Restore(old(Value()), w)
      ensures allOK <==> AllRestored(old(Value()), w)
    {
      var saved := backup.value;
      ghost var before := Value();
      ProgressEnds(before, w);
      allOK := true;
      var todo := saved.Keys;
      while todo != {}
        invariant todo <= saved.Keys && (adapters, allOK) == Progress(before, w, todo)
      {
        var a :| a in todo;
        ProgressStep(before, w, todo, a);
        if a in adapters && a !in w.missing {
          if a in w.failing {
            allOK := false;
          } else {
            adapters := adapters[a := saved[a]]; // an empty list resets the adapter
          }
        }
        todo := todo - {a};
      }
    }

    method RecoverStale(w: World)
      requires adapters.Keys <= w.done
      modifies this
      ensures Value() == Recover(old(Value()), w)
    {
      if backup.Some? {
        var _ := RestoreBackup(w);
      }
    }

    method Revert(w: World)
      requires adapters.Keys <= w.done
      modifies this
      ensures Value() == RevertGlobal(old(Value()), w)
    {
      relay := false;
      if backup.None? {
        return;
      }
      var allOK := RestoreBackup(w);
      if allOK && w.removed {
        backup := None;
      }
    }
  }

  // ---- Runs ----------------------------------------------------------------------

  datatype Event = DoRecover(w: World) | DoApply(w: World) | DoRevert(w: World) | Crash

  function Step(s: State, e: Event): State {
    match e
    case DoRecover(w) => Recover(s, w)
    case DoApply(w) => ApplyGlobal(s, w)
    case DoRevert(w) => RevertGlobal(s, w)
    case Crash => s.(relay := false)
  }

  function Run(s: State, es: seq<Event>): State {
    if es == [] then s else Step(Run(s, es[..|es| - 1]), es[|es| - 1])
  }

  /** A backup holds the servers from before the agent; without one, the adapters do. */
  predicate Safe(s: State, original: map<string, Servers>) {
    s.adapters.Keys == original.Keys && if s.backup.None? then s.adapters == original else s.backup.value == original
  }

  /** A shutdown removes the backup while an adapter it did not find by name, but that is
      there, does not have its original servers. */
  predicate Forgets(s: State, e: Event, original: map<string, Servers>) {
    && e.DoRevert? && s.backup.Some? && AllRestored(s, e.w) && e.w.removed
    && exists a :: a in e.w.missing && a in s.adapters && a in original && s.adapters[a] != original[a]
  }

  lemma RestoredAt(s: State, w: World, original: map<string, Servers>, a: string)
    requires s.adapters.Keys == original.Keys && s.backup == Some(original) && AllRestored(s, w) && a in original
    ensures Restore(s, w)[a] == if a in w.missing then s.adapters[a] else original[a]
  {
    assert a !in w.missing ==> a in Found(s, w);
  }

  /** One step keeps the promise exactly if it is not such a shutdown. */
  lemma StepSafeIff(s: State, e: Event, original: map<string, Servers>)
    requires Safe(s, original)
    ensures Safe(Step(s, e), original) <==> !Forgets(s, e, original)
  {
    if e.DoRevert? && s.backup.Some? && AllRestored(s, e.w) && e.w.removed {
      forall a | a in original
        ensures Restore(s, e.w)[a] == if a in e.w.missing then s.adapters[a] else original[a]
      {
        RestoredAt(s, e.w, original, a);
      }
      if !Forgets(s, e, original) {
        assert Restore(s, e.w) == original;
      }
    }
  }

  /** The system before the agent. */
  function Untouched(original: map<string, Servers>): State {
    State(original, None, false)
  }

  predicate AlwaysSafe(original: map<string, Servers>, es: seq<Event>) {
    Safe(Run(Untouched(original), es), original) && (es != [] ==> AlwaysSafe(original, es[..|es| - 1]))
  }

  predicate NeverForgets(original: map<string, Servers>, es: seq<Event>) {
    es != [] ==>
      && NeverForgets(original, es[..|es| - 1])
      && !Forgets(Run(Untouched(original), es[..|es| - 1]), es[|es| - 1], original)
  }

  /** Over every run from a system the agent has not touched, with adapters that fail to
      be set or found and crashes anywhere in an operation, the original servers are safe
      at every moment if and only if no shutdown removes the backup while an adapter it
      did not find is still changed. */
  lemma {:induction false} OriginalsSafeIff(original: map<string, Servers>, es: seq<Event>)
    ensures AlwaysSafe(original, es) <==> NeverForgets(original, es)
  {
    if es != [] {
      OriginalsSafeIff(original, es[..|es| - 1]);
      if AlwaysSafe(original, es[..|es| - 1]) {
        StepSafeIff(Run(Untouched(original), es[..|es| - 1]), es[|es| - 1], original);
      }
    }
  }

  /** Shutdowns whose lookups succeed never lose the original servers; lookups in the
      other operations may fail. */
  lemma {:induction false} OriginalsNeverLost(original: map<string, Servers>, es: seq<Event>)
    requires forall i :: 0 <= i < |es| && es[i].DoRevert? ==> es[i].w.missing == {}
    ensures AlwaysSafe(original, es)
  {
    if es != [] {
      OriginalsNeverLost(original, es[..|es| - 1]);
      StepSafeIff(Run(Untouched(original), es[..|es| - 1]), es[|es| - 1], original);
    }
  }

  /** Nothing fails, except that the adapters in `missing` are not found. */
  function Smooth(done: set<string>, missing: set<string>): World {
    World(done, {}, missing, true, true, true, true, true, true)
  }

  /** Why lookups matter: after a takeover, a shutdown that fails to find one adapter
      leaves it on the agent's own address and throws the backup away. */
  lemma {:induction false} FailedLookupLosesOriginals(original: map<string, Servers>, a: string)
    requires a in original && original[a] != LOOPBACK
    ensures var es := [DoApply(Smooth(original.Keys, {})), DoRevert(Smooth(original.Keys, {a}))];
      var s := Run(Untouched(original), es);
      a in s.adapters && s.adapters[a] == LOOPBACK && s.backup == None && !AlwaysSafe(original, es)
  {
    var e1, e2 := DoApply(Smooth(original.Keys, {})), DoRevert(Smooth(original.Keys, {a}));
    assert [e1, e2][..1] == [e1] && [e1][..0] == [];
    var s1 := Run(Untouched(original), [e1]);
    TakeoverKeepsOriginals(original, [], e1.w);
    assert Run(Untouched(original), [e1, e2]) == RevertGlobal(s1, e2.w);
    RestoredAt(s1, e2.w, original, a);
  }

  /** A shutdown or a recovery that gets to every adapter and fails on none puts every
      original server back, from wherever a run has led. */
  lemma {:induction false} CleanRunsRestore(original: map<string, Servers>, es: seq<Event>, w: World)
    requires NeverForgets(original, es)
    requires original.Keys <= w.done && w.failing == {} && w.missing == {} && w.removed
    ensures var s := Run(Untouched(original), es);
      RevertGlobal(s, w) == Untouched(original) && Recover(s, w).adapters == original
  {
    OriginalsSafeIff(original, es);
    CleanRestore(Run(Untouched(original), es), original, w);
  }

  lemma CleanRestore(s: State, original: map<string, Servers>, w: World)
    requires Safe(s, original) && original.Keys <= w.done && w.failing == {} && w.missing == {} && w.removed
    ensures RevertGlobal(s, w) == Untouched(original) && Recover(s, w).adapters == original
  {
    if s.backup.Some? {
      assert original - {} == original;
      assert Restore(s, w) == original;
    }
  }

  /** A takeover that fails on no adapter routes every adapter through the agent and
      leaves the original servers in the backup, even after earlier crashes. */
  lemma {:induction false} TakeoverKeepsOriginals(original: map<string, Servers>, es: seq<Event>, w: World)
    requires NeverForgets(original, es)
    requires original.Keys <= w.done && w.failing == {}
    requires w.relayStarts && w.dirMade && w.queried && w.written && w.listed
    ensures var t := ApplyGlobal(Run(Untouched(original), es), w);
      t.backup == Some(original) && t.relay && t.adapters == Takeover(original)
  {
    OriginalsSafeIff(original, es);
    var s := Run(Untouched(original), es);
    assert SetEach(s.adapters, Takeover(s.adapters), w) == Takeover(original);
  }
}
