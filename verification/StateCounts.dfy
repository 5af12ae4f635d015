/** The subagent count is computed from an unlocked read, so starts can be lost; but it never
    turns negative. */
module StateCounts {
  import opened Options
  import opened AgentRecord
  import opened Hooks
  import opened StateProtocol
  import opened StateTheorems

  predicate CountOk(u: Record) { SubagentCount in u ==> Count(u) >= 0 }

  /** Only the reporter writes the count. */
  predicate KnownWriter(j: Job) { j.Raw? ==> SubagentCount !in j.fields }

  predicate ProcCount(pr: Proc) {
    && KnownWriter(pr.job)
    && (WriteOf(pr.pc).Some? ==> CountOk(WriteOf(pr.pc).value.update))
    && (HasCommit(pr.pc) ==> Count(pr.pc.c.out) >= 0)
  }

  predicate DiskCount(d: Option<Content>) { Read(d).Some? ==> Count(Read(d).value) >= 0 }

  ghost predicate CountInv(s: Sys) { DiskCount(s.disk) && forall p <- s.procs :: ProcCount(s.procs[p]) }

  lemma RequestCounts(j: Job, snap: Record, seqNo: int)
    requires ValidJob(j) && KnownWriter(j) && Count(snap) >= 0 && Request(j, snap, seqNo).Some?
    ensures CountOk(Request(j, snap, seqNo).value.update)
  {
    match j
    case Fast(env, inp) => FastUpdateFields(env, inp, snap);
    case Report(env, inp) => ReportEntryFields(env, inp, snap);
    case _ =>
  }

  lemma DashboardCounts(j: Job)
    ensures FromDashboard(j) ==> CountOk(DashboardUpdate(j))
  {
  }

  lemma MergeCounts(existing: Option<Record>, w: Write, now: int)
    requires Merge(existing, w, now).Some? && CountOk(w.update)
    requires existing.Some? ==> Count(existing.value) >= 0
    ensures Count(Merge(existing, w, now).value) >= 0
  {
    MergeFrame(existing, w, now, SubagentCount);
    hide Merge;
  }

  lemma ApproachCounts(s: Sys, p: Pid)
    requires p in s.procs && !Critical(s.procs[p].pc) && ValidJob(s.procs[p].job)
    requires ProcCount(s.procs[p]) && DiskCount(s.disk)
    ensures ProcCount(Proc(s.procs[p].job, Approach(s, p).procs[p].pc))
  {
    hide Request, ValidJob, KnownWriter, CountOk, Approach, WriteOf;
    var Proc(job, pc) := s.procs[p];
    DashboardCounts(job);
    ApproachFrame(s, p);
    ApproachWrite(s, p);
    if pc.Entered? {
      var snap := Read(s.disk).Or(map[], (r: Record) => r);
      if Request(job, snap, pc.seqNo).Some? { RequestCounts(job, snap, pc.seqNo); }
    }
  }

  lemma HoldCounts(s: Sys, p: Pid)
    requires p in s.procs && Critical(s.procs[p].pc) && ProcCount(s.procs[p]) && DiskCount(s.disk)
    requires HolderInv(p, s.procs[p], s)
    ensures ProcCount(Proc(s.procs[p].job, Hold(s, p).procs[p].pc)) && DiskCount(Hold(s, p).disk)
  {
    hide Merge, KnownWriter, CountOk;
    var pc := s.procs[p].pc;
    if pc.Locked? && Merge(Read(s.disk), pc.w, s.clock).Some? { MergeCounts(Read(s.disk), pc.w, s.clock); }
  }

  lemma NextCounts(s: Sys, ev: Event, init: Option<Record>)
    requires Inv(s, init) && CountInv(s)
    ensures CountInv(Next(s, ev))
  {
    hide StepProc, ProcCount, DiskCount, Inv;
    if ev.Step? && ev.p in s.procs {
      StepCounts(s, ev.p, init);
      StepFrame(s, ev.p);
      StepHappens(s, ev.p);
    } else if !ev.Step? {
      EnvironmentCounts(s, ev);
    }
  }

  lemma EnvironmentCounts(s: Sys, ev: Event)
    requires CountInv(s) && !ev.Step?
    ensures CountInv(Next(s, ev))
  {
    hide KnownWriter, CountOk;
  }

  lemma StepHappens(s: Sys, p: Pid)
    requires p in s.procs
    ensures Next(s, Step(p)) == StepProc(s, p)
  {
    hide StepProc;
  }

  lemma StepCounts(s: Sys, p: Pid, init: Option<Record>)
    requires Inv(s, init) && CountInv(s) && p in s.procs
    ensures var s' := StepProc(s, p); ProcCount(Proc(s.procs[p].job, s'.procs[p].pc)) && DiskCount(s'.disk)
  {
    hide Approach, Hold, ProcCount, DiskCount, HolderInv;
    assert LocalInv(p, s.procs[p], s.lock, s.clock);
    if Critical(s.procs[p].pc) {
      HoldCounts(s, p);
    } else {
      ApproachCounts(s, p);
      ApproachFrame(s, p);
    }
  }

  lemma {:induction false} ReachCounts(s0: Sys, evs: seq<Event>)
    requires Init(s0) && PromptRun(s0, evs) && DiskCount(s0.disk)
    requires forall p <- s0.procs :: KnownWriter(s0.procs[p].job)
    ensures CountInv(Exec(s0, evs))
  {
    if evs != [] {
      var n := |evs| - 1;
      PromptPrefix(s0, evs, n);
      ReachCounts(s0, evs[..n]);
      Reach(s0, evs[..n]);
      NextCounts(Exec(s0, evs[..n]), evs[n], Read(s0.disk));
    }
  }

  /** In every interleaving, with any record deleted at any time, the count on disk stays non-negative. */
  lemma CountNeverNegative(s0: Sys, evs: seq<Event>)
    requires Init(s0) && PromptRun(s0, evs) && DiskCount(s0.disk)
    requires forall p <- s0.procs :: KnownWriter(s0.procs[p].job)
    ensures Read(Exec(s0, evs).disk).Some? ==> Count(Read(Exec(s0, evs).disk).value) >= 0
  {
    ReachCounts(s0, evs);
  }

  // ----- what a reporter's commit counts -----

  /** Past its request a process keeps the write it carries, or has none to make. */
  predicate Requested(pc: Pc, w: Option<Write>) { !pc.Start? && !pc.Entered? && WriteOf(pc) == w }

  lemma HoldWrite(s: Sys, p: Pid)
    requires p in s.procs && Critical(s.procs[p].pc)
    ensures Requested(Hold(s, p).procs[p].pc, WriteOf(s.procs[p].pc))
  {
    hide Merge;
  }

  lemma ApproachRequested(s: Sys, p: Pid)
    requires p in s.procs && !Critical(s.procs[p].pc) && !s.procs[p].pc.Start?
    ensures var pc' := Approach(s, p).procs[p].pc; !pc'.Start? && !pc'.Entered?
  {
    hide Request;
  }

  lemma NextRequested(s: Sys, ev: Event, p: Pid, w: Option<Write>)
    requires p in s.procs && Requested(s.procs[p].pc, w)
    ensures p in Next(s, ev).procs && Requested(Next(s, ev).procs[p].pc, w)
    ensures Next(s, ev).procs[p].job == s.procs[p].job
  {
    hide Approach, Hold;
    if ev == Step(p) {
      if Critical(s.procs[p].pc) {
        HoldFrame(s, p);
        HoldWrite(s, p);
      } else {
        ApproachFrame(s, p);
        ApproachRequested(s, p);
        ApproachWrite(s, p);
      }
    } else if ev.Step? && ev.p in s.procs {
      StepFrame(s, ev.p);
    }
  }

  lemma {:induction false} StaysRequested(s: Sys, evs: seq<Event>, p: Pid, w: Option<Write>)
    requires p in s.procs && Requested(s.procs[p].pc, w)
    ensures p in Exec(s, evs).procs && Requested(Exec(s, evs).procs[p].pc, w)
    ensures Exec(s, evs).procs[p].job == s.procs[p].job
  {
    hide Next, Requested;
    if evs != [] {
      StaysRequested(s, evs[..|evs| - 1], p, w);
      NextRequested(Exec(s, evs[..|evs| - 1]), evs[|evs| - 1], p, w);
    }
  }

  /** The record a reader goes on from. */
  function Held(r: Option<Record>): Record { r.Or(map[], (x: Record) => x) }

  /** A reporter's step from its unlocked read fixes the write it will make. */
  lemma ReadStep(s: Sys, p: Pid)
    requires p in s.procs && s.procs[p].pc.Entered?
    ensures var s' := Next(s, Step(p));
            && p in s'.procs && s'.procs[p].job == s.procs[p].job
            && Requested(s'.procs[p].pc, Request(s.procs[p].job, Held(Read(s.disk)), s.procs[p].pc.seqNo))
  {
    hide Request, Approach;
    ApproachFrame(s, p);
    ApproachRequested(s, p);
    ApproachWrite(s, p);
  }

  lemma ReportCarriesCount(env: Env, inp: ReportInput, snap: Record, seqNo: int)
    requires ReportRequest(env, inp, snap, seqNo).Some?
    ensures var u := ReportRequest(env, inp, snap, seqNo).value.update;
            SubagentCount in u && u[SubagentCount] == JNum(NewCount(inp.event, snap))
  {
    hide ReportEntry;
    ReportEntryFields(env, inp, snap);
  }

  /** In every run, what a reporter commits is the count of the record it read before it asked for
      the lock, brought forward by its event, whatever the record it merges onto. */
  lemma CommitsOwnCount(s0: Sys, a: seq<Event>, b: seq<Event>, p: Pid, k: nat)
    requires Init(s0) && PromptRun(s0, (a + [Step(p)]) + b)
    requires var s := Exec(s0, a); p in s.procs && s.procs[p].pc.Entered? && s.procs[p].job.Report?
    requires var log := Exec(s0, (a + [Step(p)]) + b).log; k < |log| && log[k].pid == p
    ensures var s := Exec(s0, a);
            var c := Exec(s0, (a + [Step(p)]) + b).log[k];
            var read := Count(Held(Read(s.disk)));
            Count(c.out) == match s.procs[p].job.report.event
                            case SubagentStart => read + 1
                            case SubagentStop => if read > 0 then read - 1 else 0
                            case _ => read
  {
    hide Exec, Next, Merge, FastRequest, ReportRequest, CommitInv, WriteOf, Read;
    var s, evs := Exec(s0, a), (a + [Step(p)]) + b;
    var Report(env, inp) := s.procs[p].job;
    var w := Request(s.procs[p].job, Held(Read(s.disk)), s.procs[p].pc.seqNo);
    ReadStep(s, p);
    ExecStep(s0, a, Step(p));
    ExecAppend(s0, a + [Step(p)], b);
    StaysRequested(Next(s, Step(p)), b, p, w);
    Reach(s0, evs);
    var end := Exec(s0, evs);
    assert CommitInv(end, Read(s0.disk), k);
    CommitsAreWrites(end, Read(s0.disk), k);
    var c := end.log[k];
    assert w == Some(c.w);
    LandsCount(end, Read(s0.disk), k, env, inp, Held(Read(s.disk)), s.procs[p].pc.seqNo);
  }

  lemma LandsCount(s: Sys, init: Option<Record>, k: nat, env: Env, inp: ReportInput, snap: Record, seqNo: int)
    requires k < |s.log| && CommitInv(s, init, k) && ReportRequest(env, inp, snap, seqNo) == Some(s.log[k].w)
    ensures Count(s.log[k].out) == NewCount(inp.event, snap)
  {
    hide Merge, ReportRequest, NewCount;
    ReportCarriesCount(env, inp, snap, seqNo);
    MergeFrame(s.log[k].base, s.log[k].w, s.log[k].at, SubagentCount);
  }

  /** So a start is counted exactly when the count it is merged onto is still the one it was read with. */
  lemma StartCountedExactly(s0: Sys, a: seq<Event>, b: seq<Event>, p: Pid, k: nat)
    requires Init(s0) && PromptRun(s0, (a + [Step(p)]) + b)
    requires var s := Exec(s0, a);
             && p in s.procs && s.procs[p].pc.Entered?
             && s.procs[p].job.Report? && s.procs[p].job.report.event.SubagentStart?
    requires var log := Exec(s0, (a + [Step(p)]) + b).log; k < |log| && log[k].pid == p
    ensures var read, c := Held(Read(Exec(s0, a).disk)), Exec(s0, (a + [Step(p)]) + b).log[k];
            Count(c.out) == Count(Held(c.base)) + 1 <==> Count(Held(c.base)) == Count(read)
  {
    hide Exec;
    CommitsOwnCount(s0, a, b, p, k);
  }

  // ----- starts can be lost -----

  /** Every lock holder took its lock at time t. */
  predicate HeldSince(s: Sys, t: nat) { forall p <- s.procs :: Critical(s.procs[p].pc) ==> s.procs[p].pc.since == t }

  lemma HoldSince(s: Sys, p: Pid)
    requires p in s.procs && Critical(s.procs[p].pc)
    ensures var pc' := Hold(s, p).procs[p].pc; Critical(pc') ==> pc'.since == s.procs[p].pc.since
  {
    hide Merge;
  }

  lemma StepSince(s: Sys, p: Pid)
    requires p in s.procs && HeldSince(s, s.clock)
    ensures HeldSince(StepProc(s, p), s.clock)
  {
    hide Approach, Hold;
    StepFrame(s, p);
    if Critical(s.procs[p].pc) {
      HoldSince(s, p);
    } else {
      ApproachFrame(s, p);
      ApproachPc(s, p);
    }
  }

  lemma {:induction false} AllSince(s0: Sys, evs: seq<Event>)
    requires Init(s0) && forall ev <- evs :: ev.Step?
    ensures Exec(s0, evs).clock == s0.clock && HeldSince(Exec(s0, evs), s0.clock)
  {
    hide StepProc, HeldSince;
    if evs == [] {
      NobodyYet(s0);
    } else {
      var n := |evs| - 1;
      assert evs[n] in evs;
      AllSince(s0, evs[..n]);
      var r := Exec(s0, evs[..n]);
      if evs[n].p in r.procs {
        StepFrame(r, evs[n].p);
        StepSince(r, evs[n].p);
      }
    }
  }

  lemma NobodyYet(s0: Sys)
    requires Init(s0)
    ensures HeldSince(s0, s0.clock)
  {
  }

  /** A run without the passing of time is prompt. */
  lemma AllAtOncePrompt(s0: Sys, evs: seq<Event>)
    requires Init(s0) && forall ev <- evs :: ev.Step?
    ensures PromptRun(s0, evs)
  {
    hide Init;
    forall k | 0 <= k <= |evs| ensures Prompt(Exec(s0, evs[..k])) {
      assert forall ev <- evs[..k] :: ev in evs;
      AllSince(s0, evs[..k]);
    }
  }

  /** A reporter that has read the record wants to write what it computed from it. */
  lemma ReporterEnters(s: Sys, p: Pid, env: Env, inp: ReportInput, r: Record)
    requires p in s.procs && s.procs[p] == Proc(Report(env, inp), Start) && Read(s.disk) == Some(r)
    requires ReportRequest(env, inp, r, s.clock * SEQ_SCALE).Some?
    ensures Exec(s, Repeat(p, 2)) == Goto(s, p, Trying(ReportRequest(env, inp, r, s.clock * SEQ_SCALE).value, 0))
  {
    hide Hold, ReportRequest;
    RepeatMore(s, p, 0);
    RepeatMore(s, p, 1);
    var s1 := StepProc(s, p);
    assert s1 == Goto(s, p, Entered(s.clock * SEQ_SCALE));
    assert StepProc(s1, p) == Goto(s1, p, Trying(ReportRequest(env, inp, r, s.clock * SEQ_SCALE).value, 0));
  }

  /** The record as process p leaves it when nobody else is about. */
  function AfterSolo(s: Sys, p: Pid, w: Write, out: Record): Sys
    requires p in s.procs
  {
    var c := Commit(p, w, Read(s.disk), s.clock, out);
    Goto(s, p, Finished(Outcome.Landed(w))).(
      disk := Some(Full(out)), tmp := s.tmp - {NodeTmp(p)}, log := s.log + [c], lock := None)
  }

  /** ... and as it is just before the record is written to its temporary file. */
  function Prepared(s: Sys, p: Pid, w: Write, out: Record): Sys
    requires p in s.procs
  {
    var c := Commit(p, w, Read(s.disk), s.clock, out);
    Goto(s, p, TmpCreated(s.clock, c)).(tmp := s.tmp[NodeTmp(p) := Torn], lock := Some(Lock(p, s.clock)))
  }

  lemma SoloPrepares(s: Sys, p: Pid, w: Write, out: Record)
    requires p in s.procs && s.procs[p].pc == Trying(w, 0) && s.procs[p].job.Report? && s.lock == None
    requires Merge(Read(s.disk), w, s.clock) == Some(out)
    ensures Exec(s, Repeat(p, 3)) == Prepared(s, p, w, out)
  {
    hide Merge, Exec, Repeat, Next, StepProc;
    var s1 := Goto(s, p, Locked(s.clock, w)).(lock := Some(Lock(p, s.clock)));
    var s2 := Goto(s1, p, Decided(s.clock, Commit(p, w, Read(s.disk), s.clock, out)));
    WaiterStep(s, p, w, 0);
    HolderStep(s1, p);
    HolderStep(s2, p);
    ThreeSteps(s, p, s1, s2, Prepared(s, p, w, out));
  }

  lemma SoloFinishes(s: Sys, p: Pid, w: Write, out: Record)
    requires p in s.procs && s.procs[p].job.Report?
    ensures Exec(Prepared(s, p, w, out), Repeat(p, 3)) == AfterSolo(s, p, w, out)
  {
    hide Merge, Exec, Repeat, Next, StepProc;
    var c := Commit(p, w, Read(s.disk), s.clock, out);
    var s3 := Prepared(s, p, w, out);
    var s4 := Goto(s3, p, TmpWritten(s.clock, c)).(tmp := s3.tmp[NodeTmp(p) := Full(out)]);
    var s5 := Goto(s4, p, Releasing(s.clock, Outcome.Landed(w))).(
      disk := Some(Full(out)), tmp := s4.tmp - {NodeTmp(p)}, log := s4.log + [c]);
    HolderStep(s3, p);
    HolderStep(s4, p);
    HolderStep(s5, p);
    assert s5.tmp == s.tmp - {NodeTmp(p)};
    ThreeSteps(s3, p, s4, s5, AfterSolo(s, p, w, out));
  }

  lemma SoloLands(s: Sys, p: Pid, w: Write, out: Record)
    requires p in s.procs && s.procs[p].pc == Trying(w, 0) && s.procs[p].job.Report? && s.lock == None
    requires Merge(Read(s.disk), w, s.clock) == Some(out)
    ensures Exec(s, Repeat(p, 6)) == AfterSolo(s, p, w, out)
  {
    hide Merge, Exec, Next, StepProc, AfterSolo, Prepared;
    SoloPrepares(s, p, w, out);
    SoloFinishes(s, p, w, out);
    assert Repeat(p, 6) == Repeat(p, 3) + Repeat(p, 3);
    ExecAppend(s, Repeat(p, 3), Repeat(p, 3));
  }

  /** One step under the lock, by program counter. */
  lemma HolderStep(s: Sys, p: Pid)
    requires p in s.procs && s.procs[p].job.Report? && Critical(s.procs[p].pc)
    ensures s.procs[p].pc.Locked? && Merge(Read(s.disk), s.procs[p].pc.w, s.clock).Some? ==>
              var pc := s.procs[p].pc; var out := Merge(Read(s.disk), pc.w, s.clock).value;
              StepProc(s, p) == Goto(s, p, Decided(pc.since, Commit(p, pc.w, Read(s.disk), s.clock, out)))
    ensures s.procs[p].pc.Decided? ==>
              var pc := s.procs[p].pc;
              StepProc(s, p) == Goto(s, p, TmpCreated(pc.since, pc.c)).(tmp := s.tmp[NodeTmp(p) := Torn])
    ensures s.procs[p].pc.TmpCreated? ==>
              var pc := s.procs[p].pc;
              StepProc(s, p) == Goto(s, p, TmpWritten(pc.since, pc.c)).(tmp := s.tmp[NodeTmp(p) := Full(pc.c.out)])
    ensures s.procs[p].pc.TmpWritten? && NodeTmp(p) in s.tmp ==>
              var pc := s.procs[p].pc;
              StepProc(s, p) == Goto(s, p, Releasing(pc.since, Outcome.Landed(pc.c.w))).(
                disk := Some(s.tmp[NodeTmp(p)]), tmp := s.tmp - {NodeTmp(p)}, log := s.log + [pc.c])
    ensures s.procs[p].pc.Releasing? ==>
              StepProc(s, p) == Goto(s, p, Finished(s.procs[p].pc.outcome)).(lock := None)
  {
    hide Merge, Approach;
  }

  lemma ThreeSteps(s: Sys, p: Pid, s1: Sys, s2: Sys, s3: Sys)
    requires p in s.procs && p in s1.procs && p in s2.procs
    requires StepProc(s, p) == s1 && StepProc(s1, p) == s2 && StepProc(s2, p) == s3
    ensures Exec(s, Repeat(p, 3)) == s3
  {
    hide StepProc;
    RepeatMore(s, p, 0);
    RepeatMore(s, p, 1);
    RepeatMore(s, p, 2);
  }

  lemma RequestsOneMore(env: Env, inp: ReportInput, r: Record, base: Record, seqNo: int, now: int)
    requires inp.event.SubagentStart?
    requires SeqOf(base).Some? ==> SeqOf(base).value <= seqNo
    ensures var w := ReportRequest(env, inp, r, seqNo);
            && w.Some?
            && Merge(Some(base), w.value, now).Some?
            && Count(Merge(Some(base), w.value, now).value) == Count(r) + 1
            && SeqOf(Merge(Some(base), w.value, now).value) == Some(seqNo)
  {
    hide ReportEntry;
    ReportEntryFields(env, inp, r);
  }

  /** Two reporters that are about to start on a record at time t. */
  function TwoReporters(t: nat, env: Env, a: ReportInput, b: ReportInput, r: Record): Sys {
    var procs := map[0 := Proc(Report(env, a), Start), 1 := Proc(Report(env, b), Start)];
    Sys(t, Some(Full(r)), map[], None, procs, [], false)
  }

  /** Both read the record, then each goes through its critical section. */
  function BothReadFirst(): seq<Event> { ((Repeat(0, 2) + Repeat(1, 2)) + Repeat(0, 6)) + Repeat(1, 6) }

  /** ... but starts can be lost: in a run of two reporters that both read the record before either
      has written, both starts land and one is counted, whatever the reporters and the record. */
  lemma StartsCanBeLost(t: nat, env: Env, a: ReportInput, b: ReportInput, r: Record)
    requires a.event.SubagentStart? && b.event.SubagentStart? && ValidReport(a) && ValidReport(b)
    requires SeqOf(r).Some? ==> SeqOf(r).value <= t * SEQ_SCALE
    ensures var s0 := TwoReporters(t, env, a, b, r);
            Init(s0) && PromptRun(s0, BothReadFirst()) && Read(s0.disk) == Some(r)
    ensures var s := Exec(TwoReporters(t, env, a, b, r), BothReadFirst());
            && s.procs.Keys == {0, 1}
            && (forall p <- s.procs :: s.procs[p].pc.Finished? && s.procs[p].pc.outcome.Landed?)
            && Read(s.disk).Some? && Count(Read(s.disk).value) == Count(r) + 1
  {
    hide Exec, BothReadFirst, PromptRun, Merge, ReportRequest;
    var s0, n := TwoReporters(t, env, a, b, r), t * SEQ_SCALE;
    OnlySteps(BothReadFirst());
    AllAtOncePrompt(s0, BothReadFirst());
    RequestsOneMore(env, a, r, r, n, t);
    RequestsOneMore(env, b, r, Merge(Some(r), ReportRequest(env, a, r, n).value, t).value, n, t);
    LostRun(s0, env, a, b, r);
  }

  lemma OnlySteps(evs: seq<Event>)
    requires evs == BothReadFirst()
    ensures forall ev <- evs :: ev.Step?
  {
  }

  lemma LostRun(s0: Sys, env: Env, a: ReportInput, b: ReportInput, r: Record)
    requires s0.lock == None && Read(s0.disk) == Some(r)
    requires s0.procs == map[0 := Proc(Report(env, a), Start), 1 := Proc(Report(env, b), Start)]
    requires var n := s0.clock * SEQ_SCALE;
             var first, second := ReportRequest(env, a, r, n), ReportRequest(env, b, r, n);
             && first.Some? && second.Some?
             && Merge(Some(r), first.value, s0.clock).Some?
             && Merge(Merge(Some(r), first.value, s0.clock), second.value, s0.clock).Some?
    ensures var t, n := s0.clock, s0.clock * SEQ_SCALE;
            var first, second := ReportRequest(env, a, r, n).value, ReportRequest(env, b, r, n).value;
            var twice := Merge(Merge(Some(r), first, t), second, t);
            var s := Exec(s0, BothReadFirst());
            && s.procs.Keys == {0, 1} && Read(s.disk) == twice
            && s.procs[0].pc == Finished(Outcome.Landed(first)) && s.procs[1].pc == Finished(Outcome.Landed(second))
  {
    hide Merge, ReportRequest, Exec, Repeat, Next;
    var t, n := s0.clock, s0.clock * SEQ_SCALE;
    var first, second := ReportRequest(env, a, r, n).value, ReportRequest(env, b, r, n).value;
    var once := Merge(Some(r), first, t).value;
    ExecAppend(s0, Repeat(0, 2), Repeat(1, 2));
    ExecAppend(s0, Repeat(0, 2) + Repeat(1, 2), Repeat(0, 6));
    ExecAppend(s0, (Repeat(0, 2) + Repeat(1, 2)) + Repeat(0, 6), Repeat(1, 6));
    ReporterEnters(s0, 0, env, a, r);
    var s1 := Goto(s0, 0, Trying(first, 0));
    ReporterEnters(s1, 1, env, b, r);
    var s2 := Goto(s1, 1, Trying(second, 0));
    SoloLands(s2, 0, first, once);
    var s3 := AfterSolo(s2, 0, first, once);
    SoloLands(s3, 1, second, Merge(Some(once), second, t).value);
  }
}
