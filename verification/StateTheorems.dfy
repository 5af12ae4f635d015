/** What every interleaving of the agent-state protocol guarantees. */
module StateTheorems {
  import opened Options
  import opened AgentRecord
  import opened Hooks
  import opened StateProtocol

  lemma {:induction false} Reach(s0: Sys, evs: seq<Event>)
    requires Init(s0) && PromptRun(s0, evs)
    ensures Inv(Exec(s0, evs), Read(s0.disk))
  {
    if evs == [] {
      InitInv(s0);
    } else {
      var n := |evs| - 1;
      PromptPrefix(s0, evs, n);
      Reach(s0, evs[..n]);
      assert Prompt(Exec(s0, evs[..n]));
      NextInv(Exec(s0, evs[..n]), evs[n], Read(s0.disk));
    }
  }

  lemma PromptPrefix(s0: Sys, evs: seq<Event>, n: nat)
    requires PromptRun(s0, evs) && n <= |evs|
    ensures PromptRun(s0, evs[..n])
  {
    forall k | 0 <= k <= n ensures Prompt(Exec(s0, evs[..n][..k])) {
      assert evs[..n][..k] == evs[..k];
    }
  }

  /** At most one writer, of whichever language, is in its critical section. */
  lemma MutualExclusion(s0: Sys, evs: seq<Event>, p: Pid, q: Pid)
    requires Init(s0) && PromptRun(s0, evs)
    requires var s := Exec(s0, evs);
             p in s.procs && q in s.procs && Critical(s.procs[p].pc) && Critical(s.procs[q].pc)
    ensures p == q
  {
    Reach(s0, evs);
    var s := Exec(s0, evs);
    assert LocalInv(p, s.procs[p], s.lock, s.clock) && LocalInv(q, s.procs[q], s.lock, s.clock);
  }

  /** A lock-free reader finds no file, the original record, or the record of one commit;
      never a partly written one. */
  lemma ReadersSeeCommits(s0: Sys, evs: seq<Event>)
    requires Init(s0) && PromptRun(s0, evs)
    ensures var s := Exec(s0, evs);
            s.disk.None? || (s.disk.value.Full? && Produced(s.log, Read(s0.disk), s.disk.value.rec))
  {
    Reach(s0, evs);
  }

  ghost predicate NoDelete(evs: seq<Event>) { Delete !in evs }

  lemma {:induction false} NotDeleted(s0: Sys, evs: seq<Event>)
    requires !s0.deleted && NoDelete(evs)
    ensures !Exec(s0, evs).deleted
  {
    if evs != [] {
      NotDeleted(s0, evs[..|evs| - 1]);
      var s := Exec(s0, evs[..|evs| - 1]);
      var ev := evs[|evs| - 1];
      if ev.Step? && ev.p in s.procs { StepFrame(s, ev.p); }
    }
  }

  /** The landed writes applied one after the other, each to what the previous one left. */
  function Replay(init: Option<Record>, log: seq<Commit>): Option<Record> {
    if log == [] then init
    else
      var c := log[|log| - 1];
      var before := Replay(init, log[..|log| - 1]);
      match Merge(before, c.w, c.at)
      case Some(r) => Some(r)
      case None => before
  }

  /** No update is lost: the file always equals the landed writes replayed in commit order,
      and each of them merged onto exactly the record its predecessor left. */
  lemma CommitsSerialize(s0: Sys, evs: seq<Event>)
    requires Init(s0) && PromptRun(s0, evs) && NoDelete(evs)
    ensures var s := Exec(s0, evs);
            && Read(s.disk) == Replay(Read(s0.disk), s.log)
            && forall k | 0 <= k < |s.log| ::
                 && s.log[k].base == Replay(Read(s0.disk), s.log[..k])
                 && Merge(s.log[k].base, s.log[k].w, s.log[k].at) == Some(s.log[k].out)
  {
    Reach(s0, evs);
    NotDeleted(s0, evs);
    var s := Exec(s0, evs);
    var init := Read(s0.disk);
    forall k | 0 <= k < |s.log|
      ensures s.log[k].base == Replay(init, s.log[..k])
      ensures Merge(s.log[k].base, s.log[k].w, s.log[k].at) == Some(s.log[k].out)
    {
      ReplayIsAfter(s, init, k);
      assert CommitInv(s, init, k);
    }
    ReplayIsAfter(s, init, |s.log|);
    assert s.log[..|s.log|] == s.log;
  }

  lemma {:induction false} ReplayIsAfter(s: Sys, init: Option<Record>, k: nat)
    requires CommitsInv(s, init) && !s.deleted && k <= |s.log|
    ensures Replay(init, s.log[..k]) == After(init, s.log[..k])
  {
    if k > 0 {
      ReplayIsAfter(s, init, k - 1);
      assert CommitInv(s, init, k - 1);
      assert s.log[..k][..k - 1] == s.log[..k - 1];
    }
  }

  lemma LogStep(s: Sys, ev: Event)
    ensures s.log <= Next(s, ev).log
  {
    hide StepProc;
    if ev.Step? && ev.p in s.procs { StepFrame(s, ev.p); }
  }

  lemma {:induction false} LogGrows(s0: Sys, a: seq<Event>, b: seq<Event>)
    ensures Exec(s0, a).log <= Exec(s0, a + b).log
  {
    hide Next;
    if b == [] {
      assert a + b == a;
    } else {
      var n := |b| - 1;
      LogGrows(s0, a, b[..n]);
      assert (a + b)[..|a + b| - 1] == a + b[..n];
      LogStep(Exec(s0, a + b[..n]), b[n]);
    }
  }

  lemma {:induction false} FieldFrom(s: Sys, init: Option<Record>, i: nat, k: nat, f: Field)
    requires CommitsInv(s, init) && !s.deleted && i <= k <= |s.log|
    requires After(init, s.log[..i]).Some? && f != UpdatedAt
    requires forall j | i <= j < k :: f !in s.log[j].w.update
    ensures After(init, s.log[..k]).Some?
    ensures Get(After(init, s.log[..k]).value, f) == Get(After(init, s.log[..i]).value, f)
  {
    if i < k {
      FieldFrom(s, init, i, k - 1, f);
      assert CommitInv(s, init, k - 1);
      MergeFrame(s.log[k - 1].base, s.log[k - 1].w, s.log[k - 1].at, f);
    }
  }

  /** Between two points of a run a pin survives whatever hooks and dashboards do, unless a
      later pinning write changes it: neither the fast hook nor the reporter ever does. */
  lemma PinSurvives(s0: Sys, a: seq<Event>, b: seq<Event>)
    requires Init(s0) && PromptRun(s0, a + b) && NoDelete(a + b)
    requires Read(Exec(s0, a).disk).Some?
    requires var s := Exec(s0, a + b);
             forall k | |Exec(s0, a).log| <= k < |s.log| ::
               PinnedState !in s.log[k].w.update
               || (s.log[k].pid in s.procs && (s.procs[s.log[k].pid].job.Fast? || s.procs[s.log[k].pid].job.Report?))
    ensures Read(Exec(s0, a + b).disk).Some?
    ensures Get(Read(Exec(s0, a + b).disk).value, PinnedState) == Get(Read(Exec(s0, a).disk).value, PinnedState)
  {
    var s1, s2 := Exec(s0, a), Exec(s0, a + b);
    var init := Read(s0.disk);
    assert (a + b)[..|a|] == a;
    PromptPrefix(s0, a + b, |a|);
    Reach(s0, a);
    Reach(s0, a + b);
    NotDeleted(s0, a);
    NotDeleted(s0, a + b);
    LogGrows(s0, a, b);
    var i, k := |s1.log|, |s2.log|;
    assert s2.log[..i] == s1.log && s2.log[..k] == s2.log;
    forall j | i <= j < k ensures PinnedState !in s2.log[j].w.update {
      assert CommitInv(s2, init, j);
    }
    FieldFrom(s2, init, i, k, PinnedState);
  }

  /** The late writers never move a stop state: whatever other commits fell between the
      hook's unlocked read and its write, a PostToolUse of the fast hook, a SubagentStop or a
      Stop with a pending tool leaves the state on disk where it was. */
  lemma ProtectedWritersKeepStopStates(s0: Sys, evs: seq<Event>, p: Pid)
    requires Init(s0) && PromptRun(s0, evs)
    requires var s := Exec(s0, evs);
             && p in s.procs && Protected(s.procs[p].job)
             && Read(s.disk).Some? && InStopState(Read(s.disk).value)
    ensures var r := Read(Exec(s0, evs).disk).value;
            var s' := Next(Exec(s0, evs), Step(p));
            Read(s'.disk).Some? && Get(Read(s'.disk).value, State) == Get(r, State)
  {
    Reach(s0, evs);
    ProtectedStep(Exec(s0, evs), p, Read(s0.disk));
  }

  lemma ProtectedStep(s: Sys, p: Pid, init: Option<Record>)
    requires Inv(s, init) && p in s.procs && Protected(s.procs[p].job)
    requires Read(s.disk).Some? && InStopState(Read(s.disk).value)
    ensures var r, d := Read(s.disk).value, StepProc(s, p).disk;
            Read(d).Some? && Get(Read(d).value, State) == Get(r, State)
  {
    hide StepProc, Merge, Protected, InStopState;
    StepFrame(s, p);
    assert LocalInv(p, s.procs[p], s.lock, s.clock);
    var pc := s.procs[p].pc;
    if pc.TmpWritten? {
      assert HolderInv(p, s.procs[p], s);
      GuardedMergeKeepsStopState(Read(s.disk).value, pc.c.w, pc.c.at);
    }
  }

  /** ... while the last SubagentStop is never dropped at a stop state: in every run in which it holds
      the lock over one, its next step decides on a record that keeps the state and carries every
      other field of its entry. */
  lemma FinalSubagentStopLands(s0: Sys, evs: seq<Event>, p: Pid, f: Field)
    requires Init(s0) && PromptRun(s0, evs)
    requires var s := Exec(s0, evs);
             && p in s.procs && s.procs[p].pc.Locked? && IsFinalStop(s.procs[p].job, s.procs[p].pc.w)
             && Read(s.disk).Some? && InStopState(Read(s.disk).value)
             && f in s.procs[p].pc.w.update && f !in {State, ReportSeq, UpdatedAt}
    ensures var s := Exec(s0, evs);
            var pc' := Next(s, Step(p)).procs[p].pc;
            && pc'.Decided? && pc'.c.w == s.procs[p].pc.w
            && Get(pc'.c.out, f) == Some(s.procs[p].pc.w.update[f])
            && Get(pc'.c.out, State) == Get(Read(s.disk).value, State)
  {
    Reach(s0, evs);
    var s := Exec(s0, evs);
    assert LocalInv(p, s.procs[p], s.lock, s.clock);
    DecidesOnPreserved(s, p, f);
  }

  lemma DecidesOnPreserved(s: Sys, p: Pid, f: Field)
    requires p in s.procs && s.procs[p].pc.Locked?
    requires s.procs[p].pc.w.NodeWrite? && s.procs[p].pc.w.guard && s.procs[p].pc.w.preserve
    requires Read(s.disk).Some? && InStopState(Read(s.disk).value)
    ensures var pc, pc' := s.procs[p].pc, StepProc(s, p).procs[p].pc;
            && pc'.Decided? && pc'.c.w == pc.w
            && Get(pc'.c.out, State) == Get(Read(s.disk).value, State)
            && (f in pc.w.update && f !in {State, ReportSeq, UpdatedAt} ==> Get(pc'.c.out, f) == Some(pc.w.update[f]))
  {
    hide Merge, Approach;
    PreservingMergeLands(Read(s.disk).value, s.procs[p].pc.w, s.clock, f);
  }

  /** So every commit of a last SubagentStop over a stop state, in any run, keeps that state and
      carries every other field of its entry. */
  lemma FinalStopCommitted(s0: Sys, evs: seq<Event>, k: nat, f: Field)
    requires Init(s0) && PromptRun(s0, evs)
    requires var s := Exec(s0, evs);
             && k < |s.log| && s.log[k].pid in s.procs && IsFinalStop(s.procs[s.log[k].pid].job, s.log[k].w)
             && s.log[k].base.Some? && InStopState(s.log[k].base.value)
    ensures var c := Exec(s0, evs).log[k];
            && Get(c.out, State) == Get(c.base.value, State)
            && (f in c.w.update && f !in {State, ReportSeq, UpdatedAt} ==> Get(c.out, f) == Some(c.w.update[f]))
  {
    hide Merge;
    Reach(s0, evs);
    var s := Exec(s0, evs);
    assert CommitInv(s, Read(s0.disk), k);
    PreservingMergeLands(s.log[k].base.value, s.log[k].w, s.log[k].at, f);
  }

  /** A guarded write without preservation is refused: in no run has one landed over a stop state, not
      even its other fields. */
  lemma GuardRefuses(s0: Sys, evs: seq<Event>, k: nat)
    requires Init(s0) && PromptRun(s0, evs)
    requires var log := Exec(s0, evs).log;
             && k < |log| && log[k].w.NodeWrite? && log[k].w.guard && !log[k].w.preserve
    ensures var base := Exec(s0, evs).log[k].base;
            base.Some? && State in base.value && base.value[State].JStr? ==>
              base.value[State].s !in {"idle_prompt", "done", "question", "plan"}
  {
    hide Merge;
    Reach(s0, evs);
    var s := Exec(s0, evs);
    assert CommitInv(s, Read(s0.disk), k);
    RefusedExactly(s.log[k].base, s.log[k].w, s.log[k].at);
  }

  /** So of the late writers only two kinds land over a stop state: the update of a fast hook that
      names no state, and the last SubagentStop. */
  lemma LateCommitOverStop(s0: Sys, evs: seq<Event>, k: nat)
    requires Init(s0) && PromptRun(s0, evs)
    requires var s := Exec(s0, evs);
             && k < |s.log| && s.log[k].pid in s.procs && Protected(s.procs[s.log[k].pid].job)
             && s.log[k].base.Some? && InStopState(s.log[k].base.value)
    ensures var s := Exec(s0, evs);
            var c := s.log[k];
            State !in c.w.update || IsFinalStop(s.procs[c.pid].job, c.w)
  {
    hide Merge;
    Reach(s0, evs);
    var s := Exec(s0, evs);
    assert CommitInv(s, Read(s0.disk), k);
    RefusedExactly(s.log[k].base, s.log[k].w, s.log[k].at);
  }

  /** The field as the job gives it, or else as it was. */
  function Given(j: Job, was: Record, f: Field): Option<Json> {
    match j
    case Pin(_, pinned) => (if f == PinnedState then Some(JStr(pinned)) else Get(was, f))
    case Stamp(_, cwd, branch) =>
      (if f == WorktreeCwd && cwd.Some? then Some(JStr(cwd.value))
       else if f == Branch && branch.Some? then Some(JStr(branch.value))
       else Get(was, f))
    case Raw(fields, _) => (if f in fields then Some(fields[f]) else Get(was, f))
    case _ => Get(was, f)
  }

  /** What the commits of the dashboard and of the plain hooks leave, in any run: their own fields as
      they were given, and every other one as it was. */
  lemma FixedCommits(s0: Sys, evs: seq<Event>, k: nat, f: Field)
    requires Init(s0) && PromptRun(s0, evs) && f !in {State, ReportSeq, UpdatedAt}
    requires var s := Exec(s0, evs); k < |s.log| && s.log[k].pid in s.procs
    ensures var s := Exec(s0, evs);
            var c := s.log[k];
            var job, was := s.procs[c.pid].job, c.base.Or(map[], (r: Record) => r);
            job.Pin? || job.Stamp? || job.Raw? ==> Get(c.out, f) == Given(job, was, f)
  {
    hide Exec, Merge, IsFixedRequest;
    Reach(s0, evs);
    var s := Exec(s0, evs);
    var c := s.log[k];
    CommitFixed(s, Read(s0.disk), k);
    MergeFrame(c.base, c.w, c.at, f);
    FixedFields(s.procs[c.pid].job, c.w, f, c.base.Or(map[], (r: Record) => r));
    hide Given;
  }

  lemma CommitFixed(s: Sys, init: Option<Record>, k: nat)
    requires Inv(s, init) && k < |s.log|
    ensures s.log[k].pid in s.procs && IsFixedRequest(s.procs[s.log[k].pid].job, s.log[k].w)
    ensures Merge(s.log[k].base, s.log[k].w, s.log[k].at) == Some(s.log[k].out)
  {
    hide Merge, IsFixedRequest, ProcsInv, LockInv, DiskInv;
    assert CommitInv(s, init, k);
  }

  lemma FixedFields(j: Job, w: Write, f: Field, was: Record)
    requires IsFixedRequest(j, w) && f != ReportSeq
    ensures j.Pin? || j.Stamp? || j.Raw? ==>
              Given(j, was, f) == if f in w.update then Some(w.update[f]) else Get(was, f)
  {
    if j.Raw? { assert Get(w.update - {ReportSeq}, f) == Get(w.update, f); }
  }

  /** Whatever a writer renames into place carries each of its fields, save for the state and
      the sequence, which the guard and the ordering rule may keep. */
  lemma RenameLandsFields(s0: Sys, evs: seq<Event>, p: Pid, f: Field)
    requires Init(s0) && PromptRun(s0, evs)
    requires var s := Exec(s0, evs);
             && p in s.procs && s.procs[p].pc.TmpWritten? && TmpOf(p, s.procs[p].job) in s.tmp
             && f in s.procs[p].pc.c.w.update && f !in {State, ReportSeq, UpdatedAt}
    ensures var s := Exec(s0, evs);
            var s' := Next(s, Step(p));
            Read(s'.disk).Some? && Get(Read(s'.disk).value, f) == Some(s.procs[p].pc.c.w.update[f])
  {
    Reach(s0, evs);
    RenameLands(Exec(s0, evs), p, f, Read(s0.disk));
  }

  lemma RenameLands(s: Sys, p: Pid, f: Field, init: Option<Record>)
    requires Inv(s, init) && p in s.procs && s.procs[p].pc.TmpWritten? && TmpOf(p, s.procs[p].job) in s.tmp
    requires f in s.procs[p].pc.c.w.update && f !in {State, ReportSeq, UpdatedAt}
    ensures var d := StepProc(s, p).disk; Read(d).Some? && Get(Read(d).value, f) == Some(s.procs[p].pc.c.w.update[f])
  {
    hide StepProc, Merge;
    var c := s.procs[p].pc.c;
    StepFrame(s, p);
    assert LocalInv(p, s.procs[p], s.lock, s.clock);
    assert HolderInv(p, s.procs[p], s);
    MergeFrame(c.base, c.w, c.at, f);
  }

  // ----- the bound is needed -----

  lemma ExecStep(s: Sys, evs: seq<Event>, ev: Event)
    ensures Exec(s, evs + [ev]) == Next(Exec(s, evs), ev)
  {
    assert (evs + [ev])[..|evs|] == evs;
  }

  lemma {:induction false} ExecAppend(s: Sys, a: seq<Event>, b: seq<Event>)
    ensures Exec(s, a + b) == Exec(Exec(s, a), b)
  {
    if b == [] {
      assert a + b == a;
    } else {
      ExecAppend(s, a, b[..|b| - 1]);
      assert a + b == a + b[..|b| - 1] + [b[|b| - 1]];
      ExecStep(s, a + b[..|b| - 1], b[|b| - 1]);
    }
  }

  function Repeat(p: Pid, n: nat): seq<Event> { seq(n, _ => Step(p)) }

  lemma RepeatMore(s: Sys, p: Pid, n: nat)
    ensures Exec(s, Repeat(p, n + 1)) == Next(Exec(s, Repeat(p, n)), Step(p))
  {
    hide Next;
    assert Repeat(p, n + 1)[..n] == Repeat(p, n);
  }

  /** A plain hook is ready to lock after two steps. */
  lemma Enter(s: Sys, p: Pid)
    requires p in s.procs && s.procs[p] == Proc(Raw(map[], false), Start)
    ensures Exec(s, Repeat(p, 2)) == Goto(s, p, Trying(NodeWrite(map[], false, false), 0))
  {
    hide Hold, FastRequest, ReportRequest;
    RepeatMore(s, p, 0);
    RepeatMore(s, p, 1);
    var s1 := StepProc(s, p);
    assert s1 == Goto(s, p, Entered(s.clock * SEQ_SCALE));
    var s2 := StepProc(s1, p);
    assert s2 == Goto(s1, p, Trying(NodeWrite(map[], false, false), 0));
  }

  /** One turn of the acquisition loop, by program counter. */
  lemma WaiterStep(s: Sys, p: Pid, w: Write, attempt: nat)
    requires p in s.procs && attempt < MAX_RETRIES
    requires WriteOf(s.procs[p].pc) == Some(w)
    ensures s.procs[p].pc == Trying(w, attempt) ==>
              StepProc(s, p) == if s.lock.None? then Goto(s, p, Locked(s.clock, w)).(lock := Some(Lock(p, s.clock)))
                                else Goto(s, p, Contended(w, attempt))
    ensures s.procs[p].pc == Contended(w, attempt) && s.lock.Some? && s.clock > s.lock.value.mtime + STALE_MS ==>
              StepProc(s, p) == Goto(s, p, SawStale(w, attempt))
    ensures s.procs[p].pc == SawStale(w, attempt) ==>
              StepProc(s, p) == Goto(s, p, Trying(w, attempt + 1)).(lock := None)
  {
    hide Hold, Request;
  }

  lemma TwoSteps(s: Sys, p: Pid, s1: Sys, s2: Sys)
    requires p in s.procs && p in s1.procs && StepProc(s, p) == s1 && StepProc(s1, p) == s2
    ensures Exec(s, Repeat(p, 2)) == s2
  {
    hide StepProc;
    RepeatMore(s, p, 0);
    RepeatMore(s, p, 1);
  }

  /** A waiter that finds an overdue lock removes it and takes its place in four steps. */
  lemma Usurp(s: Sys, p: Pid, w: Write)
    requires p in s.procs && s.procs[p].pc == Trying(w, 0)
    requires s.lock.Some? && s.clock > s.lock.value.mtime + STALE_MS
    ensures Exec(s, Repeat(p, 4)).procs == s.procs[p := Proc(s.procs[p].job, Locked(s.clock, w))]
    ensures Exec(s, Repeat(p, 4)).lock == Some(Lock(p, s.clock)) && Exec(s, Repeat(p, 4)).clock == s.clock
  {
    hide StepProc, Exec, Next;
    FindsStale(s, p, w);
    TakesOver(Goto(s, p, SawStale(w, 0)), p, w);
    assert Repeat(p, 4) == Repeat(p, 2) + Repeat(p, 2);
    ExecAppend(s, Repeat(p, 2), Repeat(p, 2));
  }

  lemma FindsStale(s: Sys, p: Pid, w: Write)
    requires p in s.procs && s.procs[p].pc == Trying(w, 0)
    requires s.lock.Some? && s.clock > s.lock.value.mtime + STALE_MS
    ensures Exec(s, Repeat(p, 2)) == Goto(s, p, SawStale(w, 0))
  {
    hide StepProc, Exec, Repeat;
    var s1 := Goto(s, p, Contended(w, 0));
    WaiterStep(s, p, w, 0);
    WaiterStep(s1, p, w, 0);
    TwoSteps(s, p, s1, Goto(s, p, SawStale(w, 0)));
  }

  lemma TakesOver(s: Sys, p: Pid, w: Write)
    requires p in s.procs && s.procs[p].pc == SawStale(w, 0)
    ensures Exec(s, Repeat(p, 2)) == Goto(s, p, Locked(s.clock, w)).(lock := Some(Lock(p, s.clock)))
  {
    hide StepProc, Exec, Repeat;
    var s1 := Goto(s, p, Trying(w, 1)).(lock := None);
    var s2 := Goto(s1, p, Locked(s.clock, w)).(lock := Some(Lock(p, s.clock)));
    WaiterStep(s, p, w, 0);
    WaiterStep(s1, p, w, 1);
    hide WriteOf;
    TwoSteps(s, p, s1, s2);
    assert s2.procs == Goto(s, p, Locked(s.clock, w)).procs;
  }

  /** A holder that stays one millisecond past the stale bound shares its critical section with the
      waiter that took its lock for abandoned. */
  lemma OverdueHolderLosesExclusion() returns (s0: Sys, evs: seq<Event>)
    ensures Init(s0) && s0.clock == 0
    ensures var s := Exec(s0, evs);
            && s.clock == STALE_MS + 1
            && 0 in s.procs && 1 in s.procs && Critical(s.procs[0].pc) && Critical(s.procs[1].pc)
  {
    var idle := Proc(Raw(map[], false), Start);
    s0 := Sys(0, None, map[], None, map[0 := idle, 1 := idle], [], false);
    var enter, late, usurp := Repeat(0, 2) + Repeat(1, 2), [Step(0), Tick(STALE_MS + 1)], Repeat(1, 4);
    evs := enter + late + usurp;
    hide Exec, Next, Repeat;
    Together(s0, enter, late, usurp);
  }

  lemma Together(s0: Sys, enter: seq<Event>, late: seq<Event>, usurp: seq<Event>)
    requires s0.procs == map[0 := Proc(Raw(map[], false), Start), 1 := Proc(Raw(map[], false), Start)]
    requires s0.lock == None
    requires enter == Repeat(0, 2) + Repeat(1, 2) && late == [Step(0), Tick(STALE_MS + 1)] && usurp == Repeat(1, 4)
    ensures var s := Exec(s0, enter + late + usurp);
            && s.clock == s0.clock + STALE_MS + 1
            && 0 in s.procs && 1 in s.procs && Critical(s.procs[0].pc) && Critical(s.procs[1].pc)
  {
    hide Exec, Next, Repeat;
    BothEnter(s0);
    Overtaken(Exec(s0, enter));
    ExecAppend(s0, enter + late, usurp);
    ExecAppend(s0, enter, late);
  }

  lemma BothEnter(s: Sys)
    requires s.procs == map[0 := Proc(Raw(map[], false), Start), 1 := Proc(Raw(map[], false), Start)]
    ensures var try := Trying(NodeWrite(map[], false, false), 0);
            Exec(s, Repeat(0, 2) + Repeat(1, 2)) == Goto(Goto(s, 0, try), 1, try)
  {
    hide Exec, Next, Repeat;
    ExecAppend(s, Repeat(0, 2), Repeat(1, 2));
    Enter(s, 0);
    Enter(Exec(s, Repeat(0, 2)), 1);
  }

  /** Process 0 takes the lock and stays too long; process 1 joins it. */
  lemma Overtaken(s: Sys)
    requires 0 in s.procs && 1 in s.procs && s.lock == None
    requires s.procs[0].pc == s.procs[1].pc == Trying(NodeWrite(map[], false, false), 0)
    ensures var r := Exec(Exec(s, [Step(0), Tick(STALE_MS + 1)]), Repeat(1, 4));
            && r.procs.Keys == s.procs.Keys && r.clock == s.clock + STALE_MS + 1
            && r.procs[0].pc.Locked? && r.procs[1].pc.Locked?
  {
    var w := NodeWrite(map[], false, false);
    WaiterStep(s, 0, w, 0);
    hide StepProc, Repeat;
    ExecStep(s, [Step(0)], Tick(STALE_MS + 1));
    ExecStep(s, [], Step(0));
    assert [Step(0)] + [Tick(STALE_MS + 1)] == [Step(0), Tick(STALE_MS + 1)] && [] + [Step(0)] == [Step(0)];
    Usurp(Exec(s, [Step(0), Tick(STALE_MS + 1)]), 1, w);
  }

  /** No lock holder outlives the bound, at any point of the run. */
  ghost predicate PromptRunWithin(s0: Sys, evs: seq<Event>, bound: nat) {
    forall k | 0 <= k <= |evs| :: PromptWithin(Exec(s0, evs[..k]), bound)
  }

  predicate Exclusive(s: Sys) {
    forall p <- s.procs, q <- s.procs | Critical(s.procs[p].pc) && Critical(s.procs[q].pc) :: p == q
  }

  lemma {:induction false} ClockGrows(s0: Sys, evs: seq<Event>, k: nat)
    requires k <= |evs|
    ensures Exec(s0, evs[..k]).clock <= Exec(s0, evs).clock
  {
    hide StepProc;
    if k == |evs| {
      assert evs[..k] == evs;
    } else {
      var n := |evs| - 1;
      assert evs[..k] == evs[..n][..k];
      ClockGrows(s0, evs[..n], k);
      var s := Exec(s0, evs[..n]);
      if evs[n].Step? && evs[n].p in s.procs { StepFrame(s, evs[n].p); }
    }
  }

  lemma ShortRunWithin(s0: Sys, evs: seq<Event>, bound: nat)
    requires Exec(s0, evs).clock <= bound
    ensures PromptRunWithin(s0, evs, bound)
  {
    hide Exec;
    forall k | 0 <= k <= |evs| ensures PromptWithin(Exec(s0, evs[..k]), bound) { ClockGrows(s0, evs, k); }
  }

  /** A bound on how long holders stay ensures exclusion exactly when it is no longer than the age
      at which waiters take a lock for abandoned. */
  lemma ExclusionExactly(bound: nat)
    ensures (forall s0, evs | Init(s0) && PromptRunWithin(s0, evs, bound) :: Exclusive(Exec(s0, evs)))
       <==> bound <= 5000
  {
    hide Exec, Init;
    if bound <= STALE_MS {
      forall s0, evs | Init(s0) && PromptRunWithin(s0, evs, bound) ensures Exclusive(Exec(s0, evs)) {
        forall k | 0 <= k <= |evs| ensures Prompt(Exec(s0, evs[..k])) {
          assert PromptWithin(Exec(s0, evs[..k]), bound);
        }
        var s := Exec(s0, evs);
        forall p <- s.procs, q <- s.procs | Critical(s.procs[p].pc) && Critical(s.procs[q].pc) ensures p == q {
          MutualExclusion(s0, evs, p, q);
        }
      }
    } else {
      var s0, evs := OverdueHolderLosesExclusion();
      ShortRunWithin(s0, evs, bound);
    }
  }

  // ----- ordering by report sequence -----

  predicate NotAhead(r: Option<Record>, ms: nat) {
    r.Some? && SeqOf(r.value).Some? ==> SeqOf(r.value).value <= ms * SEQ_SCALE
  }

  predicate AtLeast(c: Option<Content>, n: int) {
    Read(c).Some? && SeqOf(Read(c).value).Some? && n <= SeqOf(Read(c).value).value
  }

  /** The sequence of an unguarded write that is over, landed or refused. */
  function SettledSeq(pc: Pc): Option<int> {
    if (pc.Releasing? || pc.Finished?) && (pc.outcome.Landed? || pc.outcome.Refused?)
       && pc.outcome.w.NodeWrite? && !pc.outcome.w.guard
    then SeqOf(pc.outcome.w.update)
    else None
  }

  /** No stored sequence is ahead of the clock that read it, and every settled unguarded write
      is no newer than the file. */
  ghost predicate SeqInv(s: Sys) {
    && NotAhead(Read(s.disk), s.clock)
    && (forall p <- s.procs :: HasCommit(s.procs[p].pc) ==> NotAhead(s.procs[p].pc.c.base, s.procs[p].pc.c.at))
    && (!s.deleted ==> forall p <- s.procs ::
          SettledSeq(s.procs[p].pc).Some? ==> AtLeast(s.disk, SettledSeq(s.procs[p].pc).value))
  }

  /** No step of a process lowers the sequence on disk. */
  lemma StepKeepsSeq(s: Sys, p: Pid, init: Option<Record>)
    requires Inv(s, init) && SeqInv(s) && p in s.procs
    ensures NotAhead(Read(StepProc(s, p).disk), s.clock)
    ensures !s.deleted ==> forall n | AtLeast(s.disk, n) :: AtLeast(StepProc(s, p).disk, n)
  {
    hide Merge, StepProc;
    StepFrame(s, p);
    assert LocalInv(p, s.procs[p], s.lock, s.clock);
    var pc := s.procs[p].pc;
    if pc.TmpWritten? {
      assert HolderInv(p, s.procs[p], s);
      MergeNeverLowersSeq(pc.c.base, pc.c.w, pc.c.at);
    }
  }

  /** What a process settles is no newer than the file, and what it decides was read from a
      file not ahead of the clock. */
  ghost predicate SettlesWell(s: Sys, pr: Proc) {
    && (HasCommit(pr.pc) ==> NotAhead(pr.pc.c.base, pr.pc.c.at))
    && (!s.deleted && SettledSeq(pr.pc).Some? ==> AtLeast(s.disk, SettledSeq(pr.pc).value))
  }

  lemma DecisionSettles(s: Sys, p: Pid)
    requires p in s.procs && s.procs[p].pc.Locked? && NotAhead(Read(s.disk), s.clock)
    ensures SettlesWell(StepProc(s, p), StepProc(s, p).procs[p])
  {
    var w := s.procs[p].pc.w;
    if w.NodeWrite? && !w.guard { UnguardedMerge(Read(s.disk), w, s.clock); }
    hide Merge, Approach;
  }

  lemma RenameOutcome(s: Sys, p: Pid)
    requires p in s.procs && s.procs[p].pc.TmpWritten?
    ensures var pc := s.procs[p].pc;
            var outcome := if TmpOf(p, s.procs[p].job) in s.tmp then Outcome.Landed(pc.c.w) else Outcome.Failed(pc.c.w);
            StepProc(s, p).procs[p].pc == Releasing(pc.since, outcome)
  {
    hide Merge, Approach;
  }

  lemma RenameSettles(s: Sys, p: Pid)
    requires p in s.procs && s.procs[p].pc.TmpWritten?
    requires LocalInv(p, s.procs[p], s.lock, s.clock) && LockInv(s) && SettlesWell(s, s.procs[p])
    ensures SettlesWell(StepProc(s, p), StepProc(s, p).procs[p])
  {
    hide Merge, StepProc, WriteOk;
    var c := s.procs[p].pc.c;
    RenameOutcome(s, p);
    StepFrame(s, p);
    assert HolderInv(p, s.procs[p], s);
    SequencedByNode(s, p);
    MergeNeverLowersSeq(c.base, c.w, c.at);
  }

  lemma SequencedByNode(s: Sys, p: Pid)
    requires p in s.procs && HasCommit(s.procs[p].pc) && LocalInv(p, s.procs[p], s.lock, s.clock)
    ensures var w := s.procs[p].pc.c.w; ReportSeq in w.update ==> w.NodeWrite? && SeqOf(w.update).Some?
  {
  }

  lemma OtherStepSettles(s: Sys, p: Pid)
    requires p in s.procs && !s.procs[p].pc.Locked? && !s.procs[p].pc.TmpWritten?
    requires SettlesWell(s, s.procs[p])
    ensures SettlesWell(StepProc(s, p), StepProc(s, p).procs[p])
  {
    if Critical(s.procs[p].pc) {
      hide Approach;
    } else {
      hide Approach, Hold;
      ApproachFrame(s, p);
      if !s.procs[p].pc.Finished? { ApproachOutcome(s, p); }
    }
  }

  /** A process that gives up before it held the lock settles nothing. */
  lemma ApproachOutcome(s: Sys, p: Pid)
    requires p in s.procs && !Critical(s.procs[p].pc) && !s.procs[p].pc.Finished?
    ensures SettledSeq(Approach(s, p).procs[p].pc) == None
  {
    hide Request;
  }

  lemma StepSettles(s: Sys, p: Pid, init: Option<Record>)
    requires Inv(s, init) && SeqInv(s) && p in s.procs
    ensures SettlesWell(StepProc(s, p), StepProc(s, p).procs[p])
  {
    hide StepProc;
    assert LocalInv(p, s.procs[p], s.lock, s.clock) && SettlesWell(s, s.procs[p]);
    if s.procs[p].pc.Locked? { DecisionSettles(s, p); }
    else if s.procs[p].pc.TmpWritten? { RenameSettles(s, p); }
    else { OtherStepSettles(s, p); }
  }

  lemma NextSeqInv(s: Sys, ev: Event, init: Option<Record>)
    requires Inv(s, init) && SeqInv(s)
    ensures SeqInv(Next(s, ev))
  {
    hide StepProc, Inv, NotAhead, AtLeast, SettledSeq;
    if ev.Step? && ev.p in s.procs {
      StepFrame(s, ev.p);
      StepKeepsSeq(s, ev.p, init);
      StepSettles(s, ev.p, init);
    } else if !ev.Step? {
      EnvironmentKeepsSeq(s, ev);
    }
  }

  lemma EnvironmentKeepsSeq(s: Sys, ev: Event)
    requires SeqInv(s) && !ev.Step?
    ensures SeqInv(Next(s, ev))
  {
  }

  lemma {:induction false} ReachSeq(s0: Sys, evs: seq<Event>)
    requires Init(s0) && PromptRun(s0, evs) && NotAhead(Read(s0.disk), s0.clock)
    ensures SeqInv(Exec(s0, evs))
  {
    if evs != [] {
      var n := |evs| - 1;
      PromptPrefix(s0, evs, n);
      ReachSeq(s0, evs[..n]);
      Reach(s0, evs[..n]);
      NextSeqInv(Exec(s0, evs[..n]), evs[n], Read(s0.disk));
    }
  }

  lemma SeqStep(s: Sys, ev: Event, init: Option<Record>, n: int)
    requires Inv(s, init) && SeqInv(s) && !s.deleted && !ev.Delete? && AtLeast(s.disk, n)
    ensures AtLeast(Next(s, ev).disk, n)
  {
    hide StepProc, Inv, SeqInv, AtLeast;
    if ev.Step? && ev.p in s.procs { StepKeepsSeq(s, ev.p, init); }
  }

  /** The sequence on disk never decreases over a run. */
  lemma {:induction false} SeqNeverDecreases(s0: Sys, a: seq<Event>, b: seq<Event>, n: int)
    requires Init(s0) && PromptRun(s0, a + b) && NoDelete(a + b) && NotAhead(Read(s0.disk), s0.clock)
    requires AtLeast(Exec(s0, a).disk, n)
    ensures AtLeast(Exec(s0, a + b).disk, n)
  {
    hide Exec, Next, Inv, SeqInv, AtLeast, NotAhead, PromptRun, Init;
    if b == [] {
      assert a + b == a;
    } else {
      var m := |b| - 1;
      var pre := a + b[..m];
      assert a + b == pre + [b[m]] && (a + b)[..|pre|] == pre;
      PromptPrefix(s0, a + b, |pre|);
      SeqNeverDecreases(s0, a, b[..m], n);
      Reach(s0, pre);
      ReachSeq(s0, pre);
      StartsUndeleted(s0);
      NotDeleted(s0, pre);
      assert b[m] == (a + b)[|a| + m];
      ExecStep(s0, pre, b[m]);
      SeqStep(Exec(s0, pre), b[m], Read(s0.disk), n);
    }
  }

  lemma StartsUndeleted(s0: Sys)
    requires Init(s0)
    ensures !s0.deleted
  {
  }

  // ----- the greatest sequence -----

  /** No landed write read a sequence ahead of its clock. */
  ghost predicate LogSeqInv(s: Sys) {
    forall k | 0 <= k < |s.log| :: NotAhead(s.log[k].base, s.log[k].at)
  }

  lemma StepKeepsLogSeq(s: Sys, p: Pid)
    requires p in s.procs && SeqInv(s) && LogSeqInv(s)
    ensures LogSeqInv(StepProc(s, p))
  {
    hide StepProc, NotAhead;
    StepFrame(s, p);
  }

  lemma NextLogSeq(s: Sys, ev: Event)
    requires SeqInv(s) && LogSeqInv(s)
    ensures LogSeqInv(Next(s, ev))
  {
    hide StepProc, NotAhead;
    if ev.Step? && ev.p in s.procs { StepKeepsLogSeq(s, ev.p); }
  }

  lemma {:induction false} ReachLogSeq(s0: Sys, evs: seq<Event>)
    requires Init(s0) && PromptRun(s0, evs) && NotAhead(Read(s0.disk), s0.clock)
    ensures LogSeqInv(Exec(s0, evs))
  {
    hide SeqInv, Next, LogSeqInv;
    if evs == [] {
      NoLogYet(s0);
    } else {
      var n := |evs| - 1;
      PromptPrefix(s0, evs, n);
      ReachSeq(s0, evs[..n]);
      ReachLogSeq(s0, evs[..n]);
      NextLogSeq(Exec(s0, evs[..n]), evs[n]);
    }
  }

  lemma NoLogYet(s0: Sys)
    requires Init(s0)
    ensures LogSeqInv(s0)
  {
  }

  /** An unguarded, sequenced write of the state. */
  predicate PlainStateWrite(w: Write) {
    w.NodeWrite? && !w.guard && State in w.update && SeqOf(w.update).Some?
  }

  predicate Done(pc: Pc) {
    pc.Finished? && (pc.outcome.Landed? || pc.outcome.Refused?) && PlainStateWrite(pc.outcome.w)
  }

  /** A write that cannot outdo sequence n: it carries a smaller one, or neither state nor sequence. */
  predicate Below(w: Write, n: int) {
    if SeqOf(w.update).Some? then SeqOf(w.update).value < n else State !in w.update && ReportSeq !in w.update
  }

  /** A write below n that lands leaves the sequence below n or else the state and sequence alone,
      guarded or not, preserving or not. */
  lemma BelowLeavesGreatest(base: Option<Record>, w: Write, at: nat, n: int)
    requires Merge(base, w, at).Some? && Below(w, n) && NotAhead(base, at)
    requires ReportSeq in w.update ==> w.NodeWrite?
    ensures var out := Merge(base, w, at).value;
            (SeqOf(out).Some? && SeqOf(out).value >= n) ==>
              && base.Some? && SeqOf(out) == SeqOf(base.value)
              && Get(out, State) == Get(base.value, State)
  {
  }

  predicate Reaches(r: Option<Record>, n: int) { r.Some? && SeqOf(r.value).Some? && SeqOf(r.value).value >= n }

  /** Only the process with sequence n brings the file to n, and then with its own state. */
  ghost predicate OnlyFrom(s: Sys, w: Write, n: int) {
    forall k | 0 <= k < |s.log| :: s.log[k].w == w || Below(s.log[k].w, n)
  }

  lemma {:induction false} GreatestStays(s: Sys, init: Option<Record>, w: Write, n: int, k: nat)
    requires CommitsInv(s, init) && LogSeqInv(s) && !s.deleted && k <= |s.log|
    requires PlainStateWrite(w) && SeqOf(w.update) == Some(n) && OnlyFrom(s, w, n) && !Reaches(init, n)
    ensures Reaches(After(init, s.log[..k]), n) ==>
              Get(After(init, s.log[..k]).value, State) == Get(w.update, State)
  {
    hide Merge, PlainStateWrite, Below, SeqOf, WriteOk;
    if k > 0 {
      GreatestStays(s, init, w, n, k - 1);
      var c := s.log[k - 1];
      assert CommitInv(s, init, k - 1);
      assert NotAhead(c.base, c.at);
      assert s.log[..k][..k - 1] == s.log[..k - 1];
      if c.w == w {
        PlainLands(c.base, w, c.at);
      } else {
        SeqIsNode(s, init, k - 1);
        BelowLeavesGreatest(c.base, c.w, c.at, n);
      }
    }
  }

  lemma PlainLands(base: Option<Record>, w: Write, at: int)
    requires PlainStateWrite(w) && Merge(base, w, at).Some?
    ensures Get(Merge(base, w, at).value, State) == Get(w.update, State)
  {
    hide Merge;
    UnguardedMerge(base, w, at);
  }

  lemma SeqIsNode(s: Sys, init: Option<Record>, k: nat)
    requires k < |s.log| && CommitInv(s, init, k)
    ensures ReportSeq in s.log[k].w.update ==> s.log[k].w.NodeWrite?
  {
    hide Merge;
  }

  lemma CommitsAreWrites(s: Sys, init: Option<Record>, k: nat)
    requires k < |s.log| && CommitInv(s, init, k)
    ensures s.log[k].pid in s.procs && WriteOf(s.procs[s.log[k].pid].pc) == Some(s.log[k].w)
  {
    hide Merge, WriteOk;
  }

  lemma SettledReaches(s: Sys, p: Pid)
    requires SeqInv(s) && !s.deleted && p in s.procs && Done(s.procs[p].pc)
    ensures Reaches(Read(s.disk), SeqOf(s.procs[p].pc.outcome.w.update).value)
  {
    assert SettledSeq(s.procs[p].pc) == SeqOf(s.procs[p].pc.outcome.w.update);
  }

  /** Once the unguarded state write with the greatest sequence is through, the state on disk is its
      own and stays so: whatever order the writes arrived in, and whatever pins, stamps, guarded,
      preserving, older or failed writes went before, came after or are still under way. */
  lemma GreatestSeqWins(s0: Sys, evs: seq<Event>, p: Pid)
    requires Init(s0) && PromptRun(s0, evs) && NoDelete(evs) && NotAhead(Read(s0.disk), s0.clock)
    requires var procs := Exec(s0, evs).procs; p in procs && Done(procs[p].pc)
    requires var procs := Exec(s0, evs).procs;
             var n := SeqOf(procs[p].pc.outcome.w.update).value;
             && !Reaches(Read(s0.disk), n)
             && forall q <- procs :: q != p && WriteOf(procs[q].pc).Some? ==> Below(WriteOf(procs[q].pc).value, n)
    ensures var s := Exec(s0, evs);
            Read(s.disk).Some? && Get(Read(s.disk).value, State) == Get(s.procs[p].pc.outcome.w.update, State)
  {
    hide SeqInv, LogSeqInv, Reaches, Below, SettledSeq, Exec, CommitInv;
    Reach(s0, evs);
    ReachSeq(s0, evs);
    ReachLogSeq(s0, evs);
    NotDeleted(s0, evs);
    var s := Exec(s0, evs);
    var init := Read(s0.disk);
    var w := s.procs[p].pc.outcome.w;
    var n := SeqOf(w.update).value;
    SettledReaches(s, p);
    forall k | 0 <= k < |s.log| ensures s.log[k].w == w || Below(s.log[k].w, n) {
      assert CommitInv(s, init, k);
      CommitsAreWrites(s, init, k);
    }
    GreatestStays(s, init, w, n, |s.log|);
    assert s.log[..|s.log|] == s.log;
    ReachesSome(Read(s.disk), n);
  }

  lemma ReachesSome(r: Option<Record>, n: int)
    requires Reaches(r, n)
    ensures r.Some?
  {
  }
}
