/** The blocked-domain feed: parsing and versioning on the server, polling and matching
    on the agent. */
module Blocklist {
  import opened Domain

  // ---- Feed lines ----------------------------------------------------------------

  predicate IsSpace(c: char) {
    c == ' ' || c == '\t' || c == '\r' || c == '\n' || c == 11 as char || c == 12 as char
  }

  function SkipSpace(s: string): (r: string)
    ensures |r| <= |s| && (r != [] ==> !IsSpace(r[0]))
  {
    if s != [] && IsSpace(s[0]) then SkipSpace(s[1..]) else s
  }

  /** The characters up to the first space. */
  function Word(s: string): (r: string)
    ensures |r| <= |s| && r == s[..|r|] && forall i :: 0 <= i < |r| ==> !IsSpace(r[i])
    ensures s != [] && !IsSpace(s[0]) ==> r != []
  {
    if s == [] || IsSpace(s[0]) then [] else [s[0]] + Word(s[1..])
  }

  /** `strings.TrimSpace` on ASCII text. */
  function TrimSpace(s: string): string {
    if s != [] && IsSpace(s[|s| - 1]) then TrimSpace(s[..|s| - 1]) else SkipSpace(s)
  }

  function TrimDot(s: string): string {
    if s != [] && s[|s| - 1] == '.' then s[..|s| - 1] else s
  }

  /** The domain a feed line names: its only field, or the second one of a hosts line. */
  function LineDomain(raw: string): Option<string> {
    var line := TrimSpace(raw);
    if line == [] || line[0] == '#' then None
    else
      var first := Word(line);
      var rest := SkipSpace(line[|first|..]);
      var named := if rest != [] && (first == "0.0.0.0" || first == "127.0.0.1") then Word(rest) else first;
      var domain := Lower(TrimDot(named));
      if domain == [] || domain == "localhost" then None else Some(domain)
  }

  function Parse(lines: seq<string>): set<string> {
    if lines == [] then {}
    else
      var front := Parse(lines[..|lines| - 1]);
      match LineDomain(lines[|lines| - 1])
      case None => front
      case Some(d) => front + {d}
  }

  method ParseFeed(lines: seq<string>) returns (domains: seq<string>)
    ensures Lists(domains, Parse(lines))
  {
    var seen := {};
    for i := 0 to |lines|
      invariant seen == Parse(lines[..i])
    {
      assert lines[..i + 1][..i] == lines[..i];
      var d := LineDomain(lines[i]);
      if d.Some? {
        seen := seen + {d.value};
      }
    }
    assert lines[..|lines|] == lines;
    domains := [];
    var todo := seen;
    while todo != {}
      invariant todo <= seen && Lists(domains, seen - todo)
    {
      var d :| d in todo;
      ListsSnoc(domains, seen - todo, d);
      assert seen - todo + {d} == seen - (todo - {d});
      domains := domains + [d];
      todo := todo - {d};
    }
    assert seen - todo == seen;
  }

  /** `domains` lists the set, each member once. */
  ghost predicate Lists(domains: seq<string>, names: set<string>) {
    (forall d :: d in domains <==> d in names) && Distinct(domains)
  }

  predicate Distinct(s: seq<string>) {
    forall i, j :: 0 <= i < j < |s| ==> s[i] != s[j]
  }

  lemma ListsSnoc(domains: seq<string>, names: set<string>, d: string)
    requires Lists(domains, names) && d !in names
    ensures Lists(domains + [d], names + {d})
  {
  }

  /** What parsing yields can be told apart in the version text. */
  predicate OneLine(s: string) {
    forall i :: 0 <= i < |s| ==> s[i] != '\n'
  }

  lemma LineDomainClean(raw: string)
    requires LineDomain(raw).Some?
    ensures LineDomain(raw).value != [] && OneLine(LineDomain(raw).value)
  {
  }

  lemma {:induction false} ParseClean(lines: seq<string>, d: string)
    requires d in Parse(lines)
    ensures d != [] && OneLine(d)
  {
    var last := lines[|lines| - 1];
    if LineDomain(last) == Some(d) {
      LineDomainClean(last);
    } else {
      ParseClean(lines[..|lines| - 1], d);
    }
  }

  // ---- Sorting and the version text ----------------------------------------------

  predicate Leq(a: string, b: string) {
    a == [] || (b != [] && (a[0] < b[0] || (a[0] == b[0] && Leq(a[1..], b[1..]))))
  }

  lemma {:induction false} LeqTotal(a: string, b: string)
    ensures Leq(a, b) || Leq(b, a)
  {
    if a != [] && b != [] {
      LeqTotal(a[1..], b[1..]);
    }
  }

  lemma {:induction false} LeqAntisymmetric(a: string, b: string)
    requires Leq(a, b) && Leq(b, a)
    ensures a == b
  {
    if a != [] {
      LeqAntisymmetric(a[1..], b[1..]);
      assert a == [a[0]] + a[1..] && b == [b[0]] + b[1..];
    }
  }

  lemma {:induction false} LeqTransitive(a: string, b: string, c: string)
    requires Leq(a, b) && Leq(b, c)
    ensures Leq(a, c)
  {
    if a != [] && a[0] == b[0] && b[0] == c[0] {
      LeqTransitive(a[1..], b[1..], c[1..]);
    }
  }

  function Insert(d: string, s: seq<string>): seq<string> {
    if s == [] || Leq(d, s[0]) then [d] + s else [s[0]] + Insert(d, s[1..])
  }

  function Sort(s: seq<string>): seq<string> {
    if s == [] then [] else Insert(s[|s| - 1], Sort(s[..|s| - 1]))
  }

  /** The head is below every element, and so on down. */
  predicate Sorted(s: seq<string>) {
    s != [] ==> (forall x :: x in s ==> Leq(s[0], x)) && Sorted(s[1..])
  }

  lemma {:induction false} InsertKeeps(d: string, s: seq<string>)
    requires Sorted(s)
    ensures Sorted(Insert(d, s)) && forall x :: x in Insert(d, s) <==> x == d || x in s
  {
    if s != [] {
      assert s == [s[0]] + s[1..];
      LeqTotal(d, s[0]);
      LeqTotal(d, d);
      if Leq(d, s[0]) {
        forall x | x in s
          ensures Leq(d, x)
        {
          LeqTransitive(d, s[0], x);
        }
        assert ([d] + s)[1..] == s;
      } else {
        InsertKeeps(d, s[1..]);
        assert ([s[0]] + Insert(d, s[1..]))[1..] == Insert(d, s[1..]);
      }
    } else {
      LeqTotal(d, d);
    }
  }

  lemma {:induction false} InsertDistinct(d: string, s: seq<string>)
    requires Distinct(s) && d !in s && Sorted(s)
    ensures Distinct(Insert(d, s))
  {
    if s != [] && !Leq(d, s[0]) {
      assert s == [s[0]] + s[1..];
      InsertDistinct(d, s[1..]);
      InsertKeeps(d, s[1..]);
      assert s[0] !in s[1..];
    }
  }

  lemma {:induction false} SortKeeps(s: seq<string>)
    ensures Sorted(Sort(s)) && (forall x :: x in Sort(s) <==> x in s) && (Distinct(s) ==> Distinct(Sort(s)))
  {
    if s != [] {
      var front, d := s[..|s| - 1], s[|s| - 1];
      assert s == front + [d];
      SortKeeps(front);
      InsertKeeps(d, Sort(front));
      if Distinct(s) {
        InsertDistinct(d, Sort(front));
      }
    }
  }

  lemma SameEmptiness(a: seq<string>, b: seq<string>)
    requires forall x :: x in a <==> x in b
    ensures a == [] <==> b == []
  {
    if a != [] {
      assert a[0] in b;
    }
    if b != [] {
      assert b[0] in a;
    }
  }

  /** A set has one sorted listing. */
  lemma {:induction false} SortedUnique(a: seq<string>, b: seq<string>)
    requires Sorted(a) && Sorted(b) && Distinct(a) && Distinct(b)
    requires forall x :: x in a <==> x in b
    ensures a == b
  {
    SameEmptiness(a, b);
    if a != [] {
      assert a[0] in b;
      assert b[0] in a;
      LeqAntisymmetric(a[0], b[0]);
      assert a == [a[0]] + a[1..] && b == [b[0]] + b[1..];
      assert a[0] !in a[1..] && b[0] !in b[1..];
      assert forall x :: x in a[1..] <==> x in a && x != a[0];
      assert forall x :: x in b[1..] <==> x in b && x != b[0];
      SortedUnique(a[1..], b[1..]);
    }
  }

  function Encode(domains: seq<string>): string {
    if domains == [] then [] else domains[0] + "\n" + Encode(domains[1..])
  }

  predicate OneLiners(domains: seq<string>) {
    forall d :: d in domains ==> OneLine(d)
  }

  /** The newline-terminated text determines the list. */
  lemma {:induction false} EncodeInjective(a: seq<string>, b: seq<string>)
    requires OneLiners(a) && OneLiners(b) && Encode(a) == Encode(b)
    ensures a == b
  {
    if a != [] && b != [] {
      HeadLine(a[0], Encode(a[1..]), b[0], Encode(b[1..]));
      EncodeInjective(a[1..], b[1..]);
      assert a == [a[0]] + a[1..] && b == [b[0]] + b[1..];
    }
  }

  lemma HeadLine(x: string, s: string, y: string, t: string)
    requires OneLine(x) && OneLine(y) && x + "\n" + s == y + "\n" + t
    ensures x == y && s == t
  {
    var u := x + "\n" + s;
    assert u == y + "\n" + t && u[|x|] == '\n' && u[|y|] == '\n';
    assert forall i :: 0 <= i < |x| ==> u[i] == x[i] != '\n';
    assert forall i :: 0 <= i < |y| ==> u[i] == y[i] != '\n';
    assert u[..|x|] == x && u[..|y|] == y;
    assert u[|x| + 1..] == s && u[|y| + 1..] == t;
  }

  /** The hash is taken to be free of collisions and never empty. */
  ghost predicate CollisionFree(hash: string -> string) {
    (forall s, t :: hash(s) == hash(t) ==> s == t) && forall s :: hash(s) != []
  }

  function Version(hash: string -> string, domains: seq<string>): string {
    hash(Encode(Sort(domains)))
  }

  method HashDomains(hash: string -> string, domains: seq<string>) returns (version: string)
    ensures version == Version(hash, domains)
  {
    var sorted := Sort(domains);
    var text := "";
    for i := 0 to |sorted|
      invariant text + Encode(sorted[i..]) == Encode(sorted)
    {
      assert sorted[i..][1..] == sorted[i + 1..];
      text := text + (sorted[i] + "\n");
      assert text + Encode(sorted[i + 1..]) == Encode(sorted);
    }
    assert text + Encode(sorted[|sorted|..]) == text;
    return hash(text);
  }

  /** Versions identify sets: equal exactly when the listed sets are, in whatever order. */
  lemma VersionIdentifiesSet(hash: string -> string, a: seq<string>, b: seq<string>)
    requires CollisionFree(hash) && OneLiners(a) && OneLiners(b) && Distinct(a) && Distinct(b)
    ensures Version(hash, a) == Version(hash, b) <==> forall x :: x in a <==> x in b
  {
    SortKeeps(a);
    SortKeeps(b);
    if Version(hash, a) == Version(hash, b) {
      EncodeInjective(Sort(a), Sort(b));
      assert forall x :: x in a <==> x in Sort(a);
    }
    if forall x :: x in a <==> x in b {
      SortedUnique(Sort(a), Sort(b));
    }
  }

  // ---- Polling -------------------------------------------------------------------

  /** The server's compiled list. An empty version means nothing is loaded. */
  datatype Compiled = Compiled(domains: seq<string>, version: string)

  /** The server's store; a failed fetch keeps the last list. */
  class Store {
    var domains: seq<string>
    var version: string

    method Refresh(hash: string -> string, feed: Option<seq<string>>)
      modifies this
      ensures feed.None? ==> domains == old(domains) && version == old(version)
      ensures feed.Some? ==> Lists(domains, Parse(feed.value)) && version == Version(hash, domains)
    {
      if feed.Some? {
        domains := ParseFeed(feed.value);
        version := HashDomains(hash, domains);
      }
    }
  }

  datatype Response = Response(version: string, domains: seq<string>, notModified: bool)

  /** `compiled` is absent on a server without the feature. */
  function GetBlocklist(compiled: Option<Compiled>, known: string): Response {
    if compiled.None? || compiled.value.version == [] then Response("", [], known != [])
    else if known != [] && known == compiled.value.version then Response(known, [], true)
    else Response(compiled.value.version, compiled.value.domains, false)
  }

  /** An entry as the agent keeps it, without the final dot it files it under. */
  function Normal(d: string): string {
    Lower(TrimDot(TrimSpace(d)))
  }

  function Installed(domains: set<string>): set<string> {
    set d | d in domains && Normal(d) != [] :: Normal(d)
  }

  function Elements(domains: seq<string>): set<string> {
    set d | d in domains
  }

  datatype Agent = Agent(knownVersion: string, installed: set<string>)

  function Poll(agent: Agent, compiled: Option<Compiled>): Agent {
    var r := GetBlocklist(compiled, agent.knownVersion);
    if r.notModified || r.version == [] then agent else Agent(r.version, Installed(Elements(r.domains)))
  }

  datatype System = System(compiled: Option<Compiled>, agent: Agent)

  /** `listing` is the order in which the parsed set comes out. A fetch that fails
      changes nothing; a restart forgets the list. */
  datatype Event =
    | Refresh(lines: seq<string>, listing: seq<string>)
    | ServerRestart(enabled: bool)
    | AgentPoll
    | AgentRestart

  ghost function Step(hash: string -> string, s: System, e: Event): System {
    match e
    case Refresh(lines, listing) =>
      if s.compiled.None? || !Lists(listing, Parse(lines)) then s
      else s.(compiled := Some(Compiled(listing, Version(hash, listing))))
    case ServerRestart(enabled) => s.(compiled := if enabled then Some(Compiled([], "")) else None)
    case AgentPoll => s.(agent := Poll(s.agent, s.compiled))
    case AgentRestart => s.(agent := Agent("", {}))
  }

  ghost function Run(hash: string -> string, es: seq<Event>): System {
    if es == [] then System(None, Agent("", {})) else Step(hash, Run(hash, es[..|es| - 1]), es[|es| - 1])
  }

  /** A loaded list is distinct, clean, and goes by its own version. */
  predicate Loaded(hash: string -> string, c: Compiled) {
    Distinct(c.domains) && OneLiners(c.domains) && c.version == Version(hash, c.domains)
  }

  /** The version the agent holds is that of a list it has installed. */
  ghost predicate Holds(hash: string -> string, a: Agent, d: seq<string>) {
    Loaded(hash, Compiled(d, a.knownVersion)) && a.installed == Installed(Elements(d))
  }

  ghost predicate Consistent(hash: string -> string, s: System) {
    && (s.compiled.Some? && s.compiled.value.version != [] ==> Loaded(hash, s.compiled.value))
    && (s.agent.knownVersion != [] ==> exists d :: Holds(hash, s.agent, d))
  }

  lemma PollConsistent(hash: string -> string, s: System)
    requires Consistent(hash, s)
    ensures Consistent(hash, s.(agent := Poll(s.agent, s.compiled)))
  {
    var t := Poll(s.agent, s.compiled);
    if t != s.agent {
      assert Holds(hash, t, s.compiled.value.domains);
    }
  }

  lemma {:induction false} RunConsistent(hash: string -> string, es: seq<Event>)
    requires CollisionFree(hash)
    ensures Consistent(hash, Run(hash, es))
  {
    if es != [] {
      var s := Run(hash, es[..|es| - 1]);
      RunConsistent(hash, es[..|es| - 1]);
      match es[|es| - 1]
      case AgentPoll => PollConsistent(hash, s);
      case Refresh(lines, listing) =>
        forall d | Lists(listing, Parse(lines)) && d in listing
          ensures OneLine(d)
        {
          ParseClean(lines, d);
        }
      case _ =>
    }
  }

  lemma SameElements(a: seq<string>, b: seq<string>)
    requires forall x :: x in a <==> x in b
    ensures Elements(a) == Elements(b)
  {
  }

  /** In every run, a version the agent holds identifies what it has installed: any list
      with that version is, once normalised, the installed set. */
  lemma {:induction false} KnownVersionIdentifies(hash: string -> string, es: seq<Event>, domains: seq<string>)
    requires CollisionFree(hash) && Distinct(domains) && OneLiners(domains)
    requires var a := Run(hash, es).agent; a.knownVersion != [] && a.knownVersion == Version(hash, domains)
    ensures Run(hash, es).agent.installed == Installed(Elements(domains))
  {
    RunConsistent(hash, es);
    var a := Run(hash, es).agent;
    var d :| Holds(hash, a, d);
    VersionIdentifiesSet(hash, d, domains);
    SameElements(d, domains);
  }

  /** In every run, a poll of a loaded server leaves the agent with the server's set. */
  lemma {:induction false} PollAgrees(hash: string -> string, es: seq<Event>)
    requires CollisionFree(hash)
    requires var c := Run(hash, es).compiled; c.Some? && c.value.version != []
    ensures var t := Run(hash, es + [AgentPoll]);
      && t.compiled == Run(hash, es).compiled
      && t.agent == Agent(t.compiled.value.version, Installed(Elements(t.compiled.value.domains)))
  {
    var s := Run(hash, es);
    assert (es + [AgentPoll])[..|es|] == es;
    RunConsistent(hash, es);
    if s.agent.knownVersion == s.compiled.value.version {
      KnownVersionIdentifies(hash, es, s.compiled.value.domains);
    }
  }

  /** A feed fetched and then polled reaches the agent whole, whatever came before. */
  lemma {:induction false} FeedReachesAgent(
    hash: string -> string, es: seq<Event>, lines: seq<string>, listing: seq<string>)
    requires CollisionFree(hash) && Run(hash, es).compiled.Some? && Lists(listing, Parse(lines))
    ensures Run(hash, es + [Refresh(lines, listing)] + [AgentPoll]).agent.installed == Installed(Parse(lines))
  {
    assert (es + [Refresh(lines, listing)])[..|es|] == es;
    PollAgrees(hash, es + [Refresh(lines, listing)]);
    assert Elements(listing) == Parse(lines);
  }

  // ---- Matching ------------------------------------------------------------------

  /** The text before the first dot. */
  function Head(s: string): (r: string)
    ensures |r| <= |s|
  {
    if s == [] || s[0] == '.' then [] else [s[0]] + Head(s[1..])
  }

  lemma {:induction false} HeadEnds(s: string)
    ensures |Head(s)| < |s| ==> s[|Head(s)|] == '.' && s == Head(s) + "." + s[|Head(s)| + 1..]
  {
    if s != [] && s[0] != '.' {
      HeadEnds(s[1..]);
      assert s == [s[0]] + s[1..];
    }
  }

  lemma {:induction false} HeadIsFirst(s: string, i: nat)
    requires i < |s| && s[i] == '.'
    ensures |Head(s)| <= i
  {
    if s[0] != '.' {
      HeadIsFirst(s[1..], i - 1);
    }
  }

  function Split(s: string): (r: seq<string>)
    ensures |r| > 0
    decreases |s|
  {
    var h := Head(s);
    if |h| == |s| then [s] else [h] + Split(s[|h| + 1..])
  }

  function Join(parts: seq<string>): string
    requires |parts| > 0
  {
    if |parts| == 1 then parts[0] else parts[0] + "." + Join(parts[1..])
  }

  /** A suffix that starts at a label. */
  predicate AtLabel(s: string, p: nat) {
    p <= |s| && (p == 0 || s[p - 1] == '.')
  }

  lemma {:induction false} JoinCons(head: string, rest: seq<string>)
    requires |rest| > 0
    ensures Join([head] + rest) == head + "." + Join(rest)
  {
    assert ([head] + rest)[1..] == rest;
  }

  lemma {:induction false} JoinSplit(s: string)
    ensures Join(Split(s)) == s
    decreases |s|
  {
    var h := Head(s);
    if |h| < |s| {
      var t := s[|h| + 1..];
      HeadEnds(s);
      JoinSplit(t);
      JoinCons(h, Split(t));
    }
  }

  lemma TailSlices(h: string, parts: seq<string>, i: nat, s: string, m: nat, q: nat)
    requires i <= |parts| && m + q <= |s|
    ensures ([h] + parts)[i + 1..] == parts[i..] && s[m..][q..] == s[m + q..]
  {
  }

  /** The suffixes the resolver tries start at labels. */
  lemma {:induction false} TriedIsSuffix(s: string, i: nat) returns (p: nat)
    requires i < |Split(s)|
    ensures AtLabel(s, p) && Join(Split(s)[i..]) == s[p..]
    decreases |s|
  {
    if i == 0 {
      JoinSplit(s);
      p := 0;
      assert Split(s)[0..] == Split(s) && s[0..] == s;
    } else {
      var h := Head(s);
      var t := s[|h| + 1..];
      assert Split(s) == [h] + Split(t);
      var q := TriedIsSuffix(t, i - 1);
      p := |h| + 1 + q;
      HeadEnds(s);
      TailSlices(h, Split(t), i - 1, s, |h| + 1, q);
    }
  }

  /** And every suffix that starts at a label is tried. */
  lemma {:induction false} SuffixIsTried(s: string, p: nat) returns (i: nat)
    requires AtLabel(s, p)
    ensures i < |Split(s)| && Join(Split(s)[i..]) == s[p..]
    decreases |s|
  {
    if p == 0 {
      JoinSplit(s);
      i := 0;
      assert Split(s)[0..] == Split(s) && s[0..] == s;
    } else {
      var h := Head(s);
      HeadIsFirst(s, p - 1);
      var t, q := s[|h| + 1..], p - |h| - 1;
      assert AtLabel(t, q);
      var j := SuffixIsTried(t, q);
      i := j + 1;
      assert Split(s) == [h] + Split(t);
      TailSlices(h, Split(t), j, s, |h| + 1, q);
    }
  }

  /** `name` is listed, or lies below a listed name. */
  predicate Below(installed: set<string>, name: string) {
    exists p :: 0 <= p <= |name| && AtLabel(name, p) && name[p..] in installed
  }

  class Resolver {
    var blocked: set<string>

    /** The blocked names are kept with a trailing dot. */
    predicate Keeps(installed: set<string>)
      reads this
    {
      blocked == set d | d in installed :: d + "."
    }

    method SetBlocklist(domains: seq<string>)
      modifies this
      ensures Keeps(Installed(Elements(domains)))
    {
      var names := {};
      ghost var kept: set<string> := {};
      for i := 0 to |domains|
        invariant kept == Installed(Elements(domains[..i])) && names == set d | d in kept :: d + "."
      {
        assert domains[..i + 1] == domains[..i] + [domains[i]];
        assert Elements(domains[..i + 1]) == Elements(domains[..i]) + {domains[i]};
        var d := Lower(TrimDot(TrimSpace(domains[i])));
        if d != [] {
          names := names + {d + "."};
          kept := kept + {d};
        }
      }
      assert domains[..|domains|] == domains;
      blocked := names;
    }

    /** Holds exactly for listed names and names below them at a label boundary. */
    method IsBlocked(name: string, ghost installed: set<string>) returns (r: bool)
      requires Keeps(installed)
      ensures r <==> Below(installed, TrimDot(name))
    {
      var base := TrimDot(name);
      if blocked == {} {
        assert forall d :: d in installed ==> d + "." in blocked;
        return false;
      }
      var labels := Split(base);
      for i := 0 to |labels|
        invariant forall j :: 0 <= j < i ==> Join(labels[j..]) !in installed
      {
        if Join(labels[i..]) + "." in blocked {
          DotCancels(installed, Join(labels[i..]));
          ghost var p := TriedIsSuffix(base, i);
          assert AtLabel(base, p) && base[p..] in installed;
          return true;
        }
        DotCancels(installed, Join(labels[i..]));
      }
      forall p | 0 <= p <= |base| && AtLabel(base, p)
        ensures base[p..] !in installed
      {
        ghost var i := SuffixIsTried(base, p);
        assert Join(labels[i..]) !in installed;
      }
      return false;
    }
  }

  lemma DotCancels(installed: set<string>, s: string)
    ensures s + "." in (set d | d in installed :: d + ".") <==> s in installed
  {
    forall d | d in installed && d + "." == s + "."
      ensures d == s
    {
      assert (d + ".")[..|d|] == d && (s + ".")[..|s|] == s;
    }
  }
}
