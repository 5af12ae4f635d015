/** The report sequence of a hook is the time at which it started, however long it waits for the lock. */
module StateStamps {
  import opened Options
  import opened AgentRecord
  import opened Hooks
  import opened StateProtocol
  import opened StateTheorems

  /** Hooks that stamp their writes. */
  predicate Stamps(j: Job) { j.Fast? || j.Report? || (j.Raw? && j.stamped) }

  /** The process has started and its sequence is n. */
  predicate StampedWith(pr: Proc, n: int) {
    && Stamps(pr.job) && !pr.pc.Start?
    && (pr.pc.Entered? ==> pr.pc.seqNo == n)
    && (WriteOf(pr.pc).Some? ==> SeqOf(WriteOf(pr.pc).value.update) == Some(n))
  }

  lemma RequestStamped(j: Job, snap: Record, seqNo: int)
    requires Stamps(j) && Request(j, snap, seqNo).Some?
    ensures SeqOf(Request(j, snap, seqNo).value.update) == Some(seqNo)
  {
    hide FastUpdate, ReportEntry, ReportChanged;
  }

  lemma StampAtStart(s: Sys, p: Pid)
    requires p in s.procs && s.procs[p].pc.Start? && Stamps(s.procs[p].job)
    ensures p in Next(s, Step(p)).procs && StampedWith(Next(s, Step(p)).procs[p], s.clock * 1000)
  {
    hide Request;
  }

  lemma ApproachKeepsStamp(s: Sys, p: Pid, n: int)
    requires p in s.procs && !Critical(s.procs[p].pc) && StampedWith(s.procs[p], n)
    ensures StampedWith(Approach(s, p).procs[p], n)
  {
    hide Approach, Request;
    var Proc(job, pc) := s.procs[p];
    ApproachFrame(s, p);
    ApproachWrite(s, p);
    NeverBack(s, p);
    if pc.Entered? {
      var snap := Read(s.disk).Or(map[], (r: Record) => r);
      if Request(job, snap, pc.seqNo).Some? { RequestStamped(job, snap, pc.seqNo); }
    }
  }

  lemma NeverBack(s: Sys, p: Pid)
    requires p in s.procs && !Critical(s.procs[p].pc) && !s.procs[p].pc.Start?
    ensures !Approach(s, p).procs[p].pc.Start? && !Approach(s, p).procs[p].pc.Entered?
  {
    hide Request;
  }

  lemma HoldKeepsStamp(s: Sys, p: Pid, n: int)
    requires p in s.procs && Critical(s.procs[p].pc) && StampedWith(s.procs[p], n)
    ensures StampedWith(Hold(s, p).procs[p], n)
  {
    hide Merge, SeqOf;
  }

  lemma NextKeepsStamp(s: Sys, ev: Event, p: Pid, n: int)
    requires p in s.procs && StampedWith(s.procs[p], n)
    ensures p in Next(s, ev).procs && StampedWith(Next(s, ev).procs[p], n)
  {
    hide Approach, Hold, SeqOf, Stamps;
    if ev == Step(p) {
      if Critical(s.procs[p].pc) { HoldKeepsStamp(s, p, n); } else { ApproachKeepsStamp(s, p, n); }
    } else if ev.Step? && ev.p in s.procs {
      StepFrame(s, ev.p);
    }
  }

  lemma {:induction false} StampStays(s: Sys, evs: seq<Event>, p: Pid, n: int)
    requires p in s.procs && StampedWith(s.procs[p], n)
    ensures p in Exec(s, evs).procs && StampedWith(Exec(s, evs).procs[p], n)
  {
    hide Next, StampedWith;
    if evs != [] {
      StampStays(s, evs[..|evs| - 1], p, n);
      NextKeepsStamp(Exec(s, evs[..|evs| - 1]), evs[|evs| - 1], p, n);
    }
  }

  /** Whatever a hook commits, in any run and after any wait, carries the time of its first step. */
  lemma CommitsCarryStart(s0: Sys, a: seq<Event>, b: seq<Event>, p: Pid, k: nat)
    requires Init(s0) && PromptRun(s0, (a + [Step(p)]) + b)
    requires var s := Exec(s0, a); p in s.procs && s.procs[p].pc.Start? && Stamps(s.procs[p].job)
    requires var log := Exec(s0, (a + [Step(p)]) + b).log; k < |log| && log[k].pid == p
    ensures SeqOf(Exec(s0, (a + [Step(p)]) + b).log[k].w.update) == Some(Exec(s0, a).clock * 1000)
  {
    hide Exec, Next, CommitInv, SeqOf, Stamps;
    var s, evs := Exec(s0, a), (a + [Step(p)]) + b;
    StampAtStart(s, p);
    ExecStep(s0, a, Step(p));
    ExecAppend(s0, a + [Step(p)], b);
    StampStays(Next(s, Step(p)), b, p, s.clock * 1000);
    Reach(s0, evs);
    assert CommitInv(Exec(s0, evs), Read(s0.disk), k);
    CommitsAreWrites(Exec(s0, evs), Read(s0.disk), k);
  }
}
