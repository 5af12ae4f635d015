/** Garbage collection of agent records: duplicates of a pane, and records of panes that are gone. */
module Prune {
  import opened Options
  import opened Domain

  const IDLE_STATES := {"idle_prompt", "done", "question"}
  const FINISHED_STATES := {"done", "pr", "merged"}
  const RESUMABLE_TTL := 72 * 3600 * 1_000_000_000

  function ArbitrateState(a: Agent, transcriptOverride: string): string {
    if a.pinnedState != "" && a.state in IDLE_STATES then a.pinnedState
    else if transcriptOverride != "" then transcriptOverride
    else a.state
  }

  /** One run's view of the world. `live` is None when the panes could not be listed. */
  datatype World = World(live: Option<set<string>>, serverPID: string, now: int, dirExists: string -> bool,
                         merged: Option<(string, string) -> bool>) {
    predicate Alive(pane: string) { live.Some? && pane in live.value }

    predicate IsMerged(a: Agent) { merged.Some? && merged.value(a.EffectiveDir(), a.branch) }
  }

  predicate IsResumableOrphan(a: Agent, w: World) {
    && a.session != "" && a.state != "" && a.pane != ""
    && w.live.Some? && w.serverPID != ""
    && !w.Alive(a.pane)
    && a.serverPID != "" && a.serverPID != w.serverPID
    && ArbitrateState(a, "") !in FINISHED_STATES
    && a.branch != ""
    && w.dirExists(a.EffectiveDir())
    && !(a.updatedAt.Some? && w.now - a.updatedAt.value > RESUMABLE_TTL)
  }

  // ----- what a run keeps -----

  type Records = map<string, Agent>

  /** Another record of the same pane is newer. A time before Go's zero time loses to no record at all. */
  predicate Outdated(recs: Records, p: string)
    requires p in recs
  {
    var a := recs[p];
    a.pane != "" && (a.Time() < 0 || exists q <- recs.Keys :: recs[q].pane == a.pane && a.Time() < recs[q].Time())
  }

  /** The record's own pane is gone and nothing makes it worth keeping. */
  predicate Gone(a: Agent, w: World) {
    (a.pane == "" || !w.Alive(a.pane)) && !(IsResumableOrphan(a, w) && !w.IsMerged(a))
  }

  predicate Dead(recs: Records, p: string, w: World)
    requires p in recs
  {
    !Outdated(recs, p) && Gone(recs[p], w)
  }

  /** Every record is a duplicate or dead, and some are dead. */
  predicate SafetyNet(recs: Records, w: World) {
    (forall p <- recs.Keys :: Outdated(recs, p) || Dead(recs, p, w)) && (exists p <- recs.Keys :: Dead(recs, p, w))
  }

  predicate Kept(recs: Records, p: string, w: World)
    requires p in recs
  {
    !Outdated(recs, p) && (Dead(recs, p, w) ==> SafetyNet(recs, w))
  }

  function Pruned(recs: Records, w: World): Records {
    map p | p in recs && Kept(recs, p, w) :: recs[p]
  }

  /** A pane's newest record is not a duplicate, unless its time lies before Go's zero time. */
  predicate NewestOfPane(recs: Records, p: string)
    requires p in recs
  {
    recs[p].Time() >= 0 && forall q <- recs.Keys :: recs[q].pane == recs[p].pane ==> recs[q].Time() <= recs[p].Time()
  }

  lemma {:induction false} PaneHasNewest(recs: Records, ps: set<string>, pane: string)
    requires ps <= recs.Keys && ps != {} && forall p <- ps :: recs[p].pane == pane
    ensures exists p :: Leads(recs, ps, p)
    decreases |ps|
  {
    var p :| p in ps;
    if ps == {p} {
      assert Leads(recs, ps, p);
    } else {
      PaneHasNewest(recs, ps - {p}, pane);
      var m :| Leads(recs, ps - {p}, m);
      var r := if recs[p].Time() <= recs[m].Time() then m else p;
      forall q | q in ps ensures recs[q].Time() <= recs[r].Time() { assert q == p || q in ps - {p}; }
      assert Leads(recs, ps, r);
    }
  }

  predicate Leads(recs: Records, ps: set<string>, p: string)
    requires ps <= recs.Keys
  {
    p in ps && forall q <- ps :: recs[q].Time() <= recs[p].Time()
  }

  /** Each pane keeps at least one record out of the duplicates, provided one of its times is not
      before Go's zero time. */
  lemma DedupLeavesNewest(recs: Records, p: string)
    requires p in recs && recs[p].Time() >= 0
    ensures exists q :: q in recs && recs[q].pane == recs[p].pane && NewestOfPane(recs, q) && !Outdated(recs, q)
  {
    var ps := set q | q in recs && recs[q].pane == recs[p].pane;
    assert p in ps;
    PaneHasNewest(recs, ps, recs[p].pane);
    var q :| Leads(recs, ps, q);
    assert NewestOfPane(recs, q);
  }

  /** A run empties a directory of agents in one case only: every record names a pane and carries a
      time before Go's zero time. */
  lemma EmptiesExactly(recs: Records, w: World)
    requires recs != map[]
    ensures Pruned(recs, w) == map[] <==> forall p <- recs.Keys :: recs[p].pane != "" && recs[p].Time() < 0
  {
    hide Gone;
    if p :| p in recs && !(recs[p].pane != "" && recs[p].Time() < 0) {
      var q := if recs[p].pane == "" then p else Survivor(recs, p);
      assert !Outdated(recs, q);
      if !Kept(recs, q, w) {
        // The net did not hold, so some record is neither a duplicate nor dead.
        assert Dead(recs, q, w);
        var r :| r in recs && !Outdated(recs, r) && !Dead(recs, r, w);
        assert Kept(recs, r, w) && r in Pruned(recs, w);
      } else {
        assert q in Pruned(recs, w);
      }
    }
  }

  ghost function Survivor(recs: Records, p: string): (q: string)
    requires p in recs && recs[p].Time() >= 0
    ensures q in recs && !Outdated(recs, q)
  {
    DedupLeavesNewest(recs, p);
    var q :| q in recs && recs[q].pane == recs[p].pane && NewestOfPane(recs, q) && !Outdated(recs, q);
    q
  }

  /** One record from the year zero is enough to see the directory emptied. */
  lemma YearZeroEmpties(w: World)
    ensures var a := Agent("", "", "", "s", "running", "", "%1", "", "", "", "", Some(-1));
            Pruned(map["s.json" := a], w) == map[]
  {
    var a := Agent("", "", "", "s", "running", "", "%1", "", "", "", "", Some(-1));
    var recs := map["s.json" := a];
    assert "s.json" in recs;
    EmptiesExactly(recs, w);
  }

  /** Who survives a run, spelled out. Not superseded: no pane, or a time not before the zero time that
      no record of the pane exceeds. And then one of three: its pane is live; or it outlived its tmux
      server, less than three days ago, with unfinished work on an unmerged branch in a directory that
      is still there; or nobody else is worth keeping either. */
  lemma KeptExactly(recs: Records, p: string, w: World)
    requires p in recs
    ensures p in Pruned(recs, w) <==> Current(recs, p) && (Wanted(recs[p], w) || NobodyWanted(recs, w))
  {
    hide IsResumableOrphan;
    forall q | q in recs ensures Outdated(recs, q) <==> !Current(recs, q) { CurrentMeans(recs, q); }
    forall q | q in recs ensures Gone(recs[q], w) <==> !Wanted(recs[q], w) { WantedMeans(recs[q], w); }
  }

  predicate Current(recs: Records, p: string)
    requires p in recs
  {
    recs[p].pane == "" || NewestOfPane(recs, p)
  }

  predicate Wanted(a: Agent, w: World) {
    var dir := if a.worktreeCwd != "" then a.worktreeCwd else a.cwd;
    var resting := a.state in {"idle_prompt", "done", "question"};
    || (a.pane != "" && w.live.Some? && a.pane in w.live.value)
    || (&& a.pane != "" && a.session != "" && a.state != "" && a.branch != ""
        && w.live.Some? && w.serverPID != "" && a.serverPID !in {"", w.serverPID}
        && (if a.pinnedState != "" && resting then a.pinnedState else a.state) !in {"done", "pr", "merged"}
        && w.dirExists(dir) && !(w.merged.Some? && w.merged.value(dir, a.branch))
        && (a.updatedAt.Some? ==> w.now - a.updatedAt.value <= 72 * 60 * 60 * 1_000_000_000))
  }

  predicate NobodyWanted(recs: Records, w: World) { forall p <- recs.Keys :: Current(recs, p) ==> !Wanted(recs[p], w) }

  lemma CurrentMeans(recs: Records, p: string)
    requires p in recs
    ensures Outdated(recs, p) <==> !Current(recs, p)
  {
  }

  lemma WantedMeans(a: Agent, w: World)
    ensures Gone(a, w) <==> !Wanted(a, w)
  {
  }

  /** A record without a readable time loses to none of its kind. */
  lemma UntimedStays(recs: Records, p: string, w: World)
    requires p in recs && recs[p].updatedAt.None? && recs[p].pane != "" && w.live.Some? && recs[p].pane in w.live.value
    requires forall q <- recs.Keys :: recs[q].pane == recs[p].pane ==> recs[q].updatedAt.None?
    ensures p in Pruned(recs, w)
  {
  }

  /** The newest record of a live pane is never removed. */
  lemma LiveNewestKept(recs: Records, p: string, w: World)
    requires p in recs && w.Alive(recs[p].pane) && recs[p].pane != "" && NewestOfPane(recs, p)
    ensures p in Pruned(recs, w)
  {
  }

  /** In particular, when every record is a duplicate or worth nothing, none is removed but the
      duplicates. */
  lemma NothingDeadRemoved(recs: Records, p: string, w: World)
    requires p in recs && NobodyWanted(recs, w)
    ensures p in Pruned(recs, w) <==> Current(recs, p)
  {
    hide Pruned, Current;
    KeptExactly(recs, p, w);
  }

  lemma OutdatedOnce(recs: Records, w: World, p: string)
    requires p in Pruned(recs, w)
    ensures !Outdated(Pruned(recs, w), p)
  {
    hide Kept, Dead, Gone, SafetyNet;
    assert Kept(recs, p, w);
    assert !Outdated(recs, p) by { KeptIsCurrent(recs, p, w); }
  }

  lemma KeptIsCurrent(recs: Records, p: string, w: World)
    requires p in recs && Kept(recs, p, w)
    ensures !Outdated(recs, p)
  {
  }

  /** A second run with the same world removes nothing. */
  lemma PruneTwice(recs: Records, w: World)
    ensures Pruned(Pruned(recs, w), w) == Pruned(recs, w)
  {
    hide Outdated, Gone;
    var kept := Pruned(recs, w);
    forall p | p in kept ensures Kept(kept, p, w) {
      OutdatedOnce(recs, w, p);
      if Dead(kept, p, w) {
        assert Dead(recs, p, w) && SafetyNet(recs, w) by { KeptIsCurrent(recs, p, w); }
        forall q | q in kept ensures Dead(kept, q, w) {
          OutdatedOnce(recs, w, q);
          KeptIsCurrent(recs, q, w);
          assert Dead(recs, q, w);
        }
        assert SafetyNet(kept, w);
      }
    }
  }

  function PrunedAll(recs: Records, ws: seq<World>): Records {
    if ws == [] then recs else Pruned(PrunedAll(recs, ws[..|ws| - 1]), ws[|ws| - 1])
  }

  /** No series of runs, whatever each of them sees of the world, ever empties the directory. */
  lemma {:induction false} RunsNeverEmpty(recs: Records, ws: seq<World>)
    requires recs != map[] && forall p <- recs.Keys :: recs[p].Time() >= 0
    ensures PrunedAll(recs, ws) != map[]
    ensures forall p <- PrunedAll(recs, ws).Keys :: p in recs && PrunedAll(recs, ws)[p] == recs[p]
  {
    hide Kept;
    if ws != [] {
      var before := PrunedAll(recs, ws[..|ws| - 1]);
      RunsNeverEmpty(recs, ws[..|ws| - 1]);
      var p :| p in before;
      assert before[p].Time() >= 0;
      EmptiesExactly(before, ws[|ws| - 1]);
    }
  }

  // ----- the run over the directory -----

  datatype AgentFile = AgentFile(path: string, agent: Agent)

  /** The decoded records among some files, in order. A file without one is None. */
  function Load(files: map<string, Option<Agent>>, names: seq<string>): (r: seq<AgentFile>)
    requires forall n <- names :: n in files
  {
    if names == [] then []
    else
      var n := names[|names| - 1];
      Load(files, names[..|names| - 1]) + if files[n].Some? then [AgentFile(n, files[n].value)] else []
  }

  function RecordsOf(files: map<string, Option<Agent>>): Records {
    map p | p in files && files[p].Some? :: files[p].value
  }

  predicate Distinct<T(==)>(s: seq<T>) { forall i, j | 0 <= i < j < |s| :: s[i] != s[j] }

  /** The newest time of a pane's records, but never one before the zero time. */
  function NewestTime(fs: seq<AgentFile>, pane: string): (t: int) {
    if fs == [] then 0
    else
      var before, f := NewestTime(fs[..|fs| - 1], pane), fs[|fs| - 1];
      if f.agent.pane == pane && f.agent.Time() > before then f.agent.Time() else before
  }

  lemma {:induction false} NewestTimeMeans(fs: seq<AgentFile>, pane: string, t: int)
    ensures t < NewestTime(fs, pane) <==> t < 0 || exists f <- fs :: f.agent.pane == pane && t < f.agent.Time()
  {
    if fs != [] {
      var n := |fs| - 1;
      NewestTimeMeans(fs[..n], pane, t);
      assert fs == fs[..n] + [fs[n]];
    }
  }

  lemma {:induction false} LoadMeans(files: map<string, Option<Agent>>, names: seq<string>)
    requires forall n <- names :: n in files
    ensures forall f :: f in Load(files, names) <==> f.path in names && files[f.path] == Some(f.agent)
    ensures |Load(files, names)| <= |names|
    ensures Distinct(names) ==>
              forall i, j | 0 <= i < j < |Load(files, names)| ::
                Load(files, names)[i].path != Load(files, names)[j].path
  {
    if names != [] {
      var k := |names| - 1;
      LoadMeans(files, names[..k]);
      assert names == names[..k] + [names[k]];
      var r := Load(files, names[..k]);
      assert Distinct(names) ==> Distinct(names[..k]);
      forall f | f in r && Distinct(names) ensures f.path != names[k] {
        var i :| 0 <= i < k && names[i] == f.path;
      }
    }
  }

  lemma OutdatedByTime(files: map<string, Option<Agent>>, names: seq<string>, f: AgentFile)
    requires (forall n <- names :: n in files) && forall n <- files.Keys :: n in names
    requires f in Load(files, names)
    ensures f.path in RecordsOf(files) && RecordsOf(files)[f.path] == f.agent
    ensures Outdated(RecordsOf(files), f.path) <==>
              f.agent.pane != "" && f.agent.Time() < NewestTime(Load(files, names), f.agent.pane)
  {
    var recs, fs := RecordsOf(files), Load(files, names);
    LoadMeans(files, names);
    NewestTimeMeans(fs, f.agent.pane, f.agent.Time());
    if q :| q in recs && recs[q].pane == f.agent.pane && f.agent.Time() < recs[q].Time() {
      assert AgentFile(q, recs[q]) in fs;
    }
    if g :| g in fs && g.agent.pane == f.agent.pane && f.agent.Time() < g.agent.Time() {
      assert g.path in recs && recs[g.path] == g.agent;
    }
  }

  class AgentsDir {
    var files: map<string, Option<Agent>>

    constructor ()
      ensures files == map[]
    {
      files := map[];
    }

    method List() returns (names: seq<string>)
      ensures Distinct(names) && forall n :: n in names <==> n in files
    {
      var rest := files.Keys;
      names := [];
      while rest != {}
        invariant rest <= files.Keys && Distinct(names)
        invariant forall n :: n in names <==> n in files && n !in rest
        decreases |rest|
      {
        var n :| n in rest;
        names := names + [n];
        rest := rest - {n};
      }
    }

    /** Reads the records and the newest time of every pane. */
    method ReadFiles(names: seq<string>) returns (fs: seq<AgentFile>, newestPerPane: map<string, int>)
      requires forall n <- names :: n in files
      ensures fs == Load(files, names)
      ensures forall pane | pane != "" :: Lookup(newestPerPane, pane) == NewestTime(fs, pane)
    {
      fs, newestPerPane := [], map[];
      var i := 0;
      while i < |names|
        invariant i <= |names|
        invariant fs == Load(files, names[..i])
        invariant forall pane | pane != "" :: Lookup(newestPerPane, pane) == NewestTime(fs, pane)
      {
        assert names[..i + 1][..i] == names[..i];
        var read := files[names[i]];
        i := i + 1;
        if read.None? { continue; }
        var agent := read.value;
        var t := agent.Time();
        assert (fs + [AgentFile(names[i - 1], agent)])[..|fs|] == fs;
        fs := fs + [AgentFile(names[i - 1], agent)];
        if agent.pane != "" && t > Lookup(newestPerPane, agent.pane) {
          newestPerPane := newestPerPane[agent.pane := t];
        }
      }
      assert names[..i] == names;
    }

    method Remove(paths: seq<string>) returns (removed: nat)
      requires Distinct(paths) && forall p <- paths :: p in files
      modifies this`files
      ensures files == Without(old(files), paths)
      ensures |files| + removed == |old(files)|
    {
      removed := 0;
      while removed < |paths|
        invariant removed <= |paths|
        invariant files == Without(old(files), paths[..removed])
        invariant |files| + removed == |old(files)|
      {
        assert paths[..removed + 1] == paths[..removed] + [paths[removed]];
        WithoutOne(old(files), paths[..removed], paths[removed]);
        files := files - {paths[removed]};
        removed := removed + 1;
      }
      assert paths[..removed] == paths;
    }

    /** Decides what to remove: the duplicates, the dead, and whether the dead may go. */
    method Judge(w: World) returns (dedupPaths: seq<string>, deadPaths: seq<string>, applyDead: bool)
      ensures Distinct(dedupPaths) && Distinct(deadPaths)
      ensures forall p <- dedupPaths :: p in RecordsOf(files)
      ensures forall p <- deadPaths :: p in RecordsOf(files)
      ensures forall p <- RecordsOf(files).Keys ::
                && (p in dedupPaths <==> Outdated(RecordsOf(files), p))
                && (p in deadPaths <==> Dead(RecordsOf(files), p, w))
      ensures applyDead <==> !SafetyNet(RecordsOf(files), w)
    {
      hide Outdated, Dead, SafetyNet, Classified, Load, SortedOut, Distinct;
      var names := List();
      var fs, newestPerPane := ReadFiles(names);
      ghost var recs := RecordsOf(files);
      assert SortedOut(recs, fs, newestPerPane) by { LoadedFiles(files, names, newestPerPane); }
      LoadMeans(files, names);
      dedupPaths, deadPaths := Classify(fs, newestPerPane, w);
      PathsMean(recs, fs, newestPerPane, dedupPaths, deadPaths, w);
      NetByCount(recs, fs, newestPerPane, dedupPaths, deadPaths, w);
      applyDead := true;
      if |deadPaths| + |dedupPaths| == |fs| && |fs| > 0 && |deadPaths| > 0 { applyDead := false; }
    }

    /** One run over the directory: it leaves exactly the kept records, and never touches a file that
        holds none. */
    method PruneDead(w: World) returns (removed: nat)
      modifies this
      ensures RecordsOf(files) == Pruned(RecordsOf(old(files)), w)
      ensures forall p :: p in files <==> p in old(files) && (old(files)[p].None? || Kept(RecordsOf(old(files)), p, w))
      ensures forall p <- files.Keys :: files[p] == old(files)[p]
      ensures removed == |old(files)| - |files|
    {
      hide Outdated, Gone, SafetyNet, Distinct;
      ghost var recs := RecordsOf(files);
      var dedupPaths, deadPaths, applyDead := Judge(w);
      forall p | p in deadPaths ensures p !in dedupPaths { assert Dead(recs, p, w); }
      removed := Remove(dedupPaths);
      if applyDead {
        var more := Remove(deadPaths);
        removed := removed + more;
      }
    }
  }

  function Without(files: map<string, Option<Agent>>, paths: seq<string>): map<string, Option<Agent>> {
    map p | p in files && p !in paths :: files[p]
  }

  lemma WithoutOne(files: map<string, Option<Agent>>, paths: seq<string>, p: string)
    ensures Without(files, paths + [p]) == Without(files, paths) - {p}
    ensures p in files && p !in paths ==> |Without(files, paths + [p])| == |Without(files, paths)| - 1
  {
    assert Without(files, paths + [p]).Keys == Without(files, paths).Keys - {p};
  }

  function Lookup(m: map<string, int>, pane: string): int { if pane in m then m[pane] else 0 }

  predicate Stale(f: AgentFile, newestPerPane: map<string, int>) {
    f.agent.pane != "" && f.agent.Time() < Lookup(newestPerPane, f.agent.pane)
  }

  /** The files hold the records, and the times per pane tell the duplicates. */
  ghost predicate SortedOut(recs: Records, fs: seq<AgentFile>, newestPerPane: map<string, int>) {
    && (forall f <- fs ::
          f.path in recs && recs[f.path] == f.agent && (Outdated(recs, f.path) <==> Stale(f, newestPerPane)))
    && (forall p <- recs.Keys :: exists f <- fs :: f.path == p)
  }

  /** The two lists of the run: duplicates, and dead records among the rest. */
  ghost predicate Classified(fs: seq<AgentFile>, newestPerPane: map<string, int>, w: World, dedup: seq<string>,
      dead: seq<string>) {
    && (forall p :: p in dedup <==> exists f <- fs :: f.path == p && Stale(f, newestPerPane))
    && (forall p :: p in dead <==> exists f <- fs :: f.path == p && !Stale(f, newestPerPane) && Gone(f.agent, w))
    && |dedup| + |dead| <= |fs|
    && (|dedup| + |dead| == |fs| <==> forall f <- fs :: Stale(f, newestPerPane) || Gone(f.agent, w))
  }

  lemma LoadedFiles(files: map<string, Option<Agent>>, names: seq<string>, newestPerPane: map<string, int>)
    requires (forall n <- names :: n in files) && forall n <- files.Keys :: n in names
    requires forall pane | pane != "" :: Lookup(newestPerPane, pane) == NewestTime(Load(files, names), pane)
    ensures SortedOut(RecordsOf(files), Load(files, names), newestPerPane)
  {
    hide Outdated, Load, Stale;
    var recs, fs := RecordsOf(files), Load(files, names);
    forall f | f in fs
      ensures f.path in recs && recs[f.path] == f.agent && (Outdated(recs, f.path) <==> Stale(f, newestPerPane))
    {
      LoadedFile(files, names, newestPerPane, f);
    }
    forall p | p in recs ensures exists f <- fs :: f.path == p {
      LoadMeans(files, names);
      assert AgentFile(p, recs[p]) in fs;
    }
  }

  lemma LoadedFile(files: map<string, Option<Agent>>, names: seq<string>, newestPerPane: map<string, int>, f: AgentFile)
    requires (forall n <- names :: n in files) && forall n <- files.Keys :: n in names
    requires forall pane | pane != "" :: Lookup(newestPerPane, pane) == NewestTime(Load(files, names), pane)
    requires f in Load(files, names)
    ensures var recs := RecordsOf(files);
            f.path in recs && recs[f.path] == f.agent && (Outdated(recs, f.path) <==> Stale(f, newestPerPane))
  {
    hide Outdated, Load, NewestTime, Lookup;
    OutdatedByTime(files, names, f);
  }

  lemma PathsMean(recs: Records, fs: seq<AgentFile>, newestPerPane: map<string, int>, dedup: seq<string>,
      dead: seq<string>, w: World)
    requires SortedOut(recs, fs, newestPerPane) && Classified(fs, newestPerPane, w, dedup, dead)
    ensures forall p <- dedup :: p in recs
    ensures forall p <- dead :: p in recs
    ensures forall p <- recs.Keys :: (p in dedup <==> Outdated(recs, p)) && (p in dead <==> Dead(recs, p, w))
  {
    hide Outdated, Gone, Stale;
  }

  lemma NetByCount(recs: Records, fs: seq<AgentFile>, newestPerPane: map<string, int>, dedup: seq<string>,
      dead: seq<string>, w: World)
    requires SortedOut(recs, fs, newestPerPane) && Classified(fs, newestPerPane, w, dedup, dead)
    ensures |dead| + |dedup| == |fs| && |fs| > 0 && |dead| > 0 <==> SafetyNet(recs, w)
  {
    hide Outdated, Gone, Stale;
    PathsMean(recs, fs, newestPerPane, dedup, dead, w);
    if |dead| > 0 { assert dead[0] in dead; }
    if p :| p in recs && Dead(recs, p, w) { assert p in dead; }
    if forall f <- fs :: Stale(f, newestPerPane) || Gone(f.agent, w) {
      forall p | p in recs ensures Outdated(recs, p) || Dead(recs, p, w) {
        var f :| f in fs && f.path == p;
      }
    }
    if forall p <- recs.Keys :: Outdated(recs, p) || Dead(recs, p, w) {
      forall f | f in fs ensures Stale(f, newestPerPane) || Gone(f.agent, w) {
        assert Outdated(recs, f.path) || Dead(recs, f.path, w);
      }
    }
  }

  lemma AppendDistinct<T>(s: seq<T>, x: T)
    requires Distinct(s) && x !in s
    ensures Distinct(s + [x])
  {
  }

  lemma ClassifyStep(fs: seq<AgentFile>, i: nat, newestPerPane: map<string, int>, w: World,
                     dedup: seq<string>, dead: seq<string>, dedup': seq<string>, dead': seq<string>)
    requires i < |fs| && forall i, j | 0 <= i < j < |fs| :: fs[i].path != fs[j].path
    requires Classified(fs[..i], newestPerPane, w, dedup, dead) && Distinct(dedup) && Distinct(dead)
    requires dedup' == if Stale(fs[i], newestPerPane) then dedup + [fs[i].path] else dedup
    requires dead' == if !Stale(fs[i], newestPerPane) && Gone(fs[i].agent, w) then dead + [fs[i].path] else dead
    ensures Classified(fs[..i + 1], newestPerPane, w, dedup', dead') && Distinct(dedup') && Distinct(dead')
  {
    hide Stale, Gone, Distinct;
    var f := fs[i];
    assert fs[..i + 1] == fs[..i] + [f];
    forall g | g in fs[..i] ensures g.path != f.path { var j :| 0 <= j < i && fs[j] == g; }
    if Stale(f, newestPerPane) {
      AppendDistinct(dedup, f.path);
    } else if Gone(f.agent, w) {
      AppendDistinct(dead, f.path);
    }
  }

  method Classify(fs: seq<AgentFile>, newestPerPane: map<string, int>, w: World)
      returns (dedup: seq<string>, dead: seq<string>)
    requires forall i, j | 0 <= i < j < |fs| :: fs[i].path != fs[j].path
    ensures Classified(fs, newestPerPane, w, dedup, dead)
    ensures Distinct(dedup) && Distinct(dead)
  {
    hide Classified, Distinct, IsResumableOrphan;
    dedup, dead := [], [];
    var i := 0;
    assert Classified(fs[..0], newestPerPane, w, [], []) && Distinct<string>([]) by {
      NothingClassified(newestPerPane, w);
    }
    while i < |fs|
      invariant i <= |fs|
      invariant Classified(fs[..i], newestPerPane, w, dedup, dead)
      invariant Distinct(dedup) && Distinct(dead)
    {
      var f := fs[i];
      ghost var dedup0, dead0 := dedup, dead;
      if f.agent.pane != "" && f.agent.Time() < Lookup(newestPerPane, f.agent.pane) {
        dedup := dedup + [f.path];
      } else if f.agent.pane == "" || !w.Alive(f.agent.pane) {
        var shipped := w.merged.Some? && w.merged.value(f.agent.EffectiveDir(), f.agent.branch);
        if !IsResumableOrphan(f.agent, w) || shipped { dead := dead + [f.path]; }
      }
      ClassifyStep(fs, i, newestPerPane, w, dedup0, dead0, dedup, dead);
      i := i + 1;
    }
    assert fs[..i] == fs;
  }

  lemma NothingClassified(newestPerPane: map<string, int>, w: World)
    ensures Classified([], newestPerPane, w, [], []) && Distinct<string>([])
  {
  }
}
