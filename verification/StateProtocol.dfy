/** The agent-state file protocol as a step system: hook processes and dashboard goroutines
    update one record through a sidecar lock, a re-read, a merge, a temporary file and a
    rename, while the clock advances and the file may be unlinked without the lock. */
module StateProtocol {
  import opened Options
  import opened AgentRecord
  import opened Hooks

  type Pid = nat

  /** What one process was started for.  Raw covers the remaining hooks (pr-detect,
      worktree claims, ...), whose update does not depend on the earlier read. */
  datatype Job =
    | Fast(env: Env, fast: FastInput)
    | Report(env: Env, report: ReportInput)
    | Raw(fields: Record, stamped: bool)
    | Stamp(osPid: nat, cwd: Option<string>, branch: Option<string>)
    | Pin(osPid: nat, pinned: string)

  predicate ValidJob(j: Job) {
    match j
    case Fast(_, inp) => ValidFast(inp)
    case Report(_, inp) => ValidReport(inp)
    case Raw(fields, _) => ReportSeq !in fields
    case _ => true
  }

  predicate FromDashboard(j: Job) { j.Stamp? || j.Pin? }

  function DashboardUpdate(j: Job): Record
    requires FromDashboard(j)
  {
    match j
    case Pin(_, pinned) => map[PinnedState := JStr(pinned)]
    case Stamp(_, cwd, branch) =>
      (if cwd.Some? then map[WorktreeCwd := JStr(cwd.value)] else map[])
      + (if branch.Some? then map[Branch := JStr(branch.value)] else map[])
  }

  /** A hook's write request, from the record it read without the lock. */
  function Request(j: Job, snap: Record, seqNo: int): Option<Write> {
    match j
    case Fast(env, inp) => FastRequest(env, inp, snap, seqNo)
    case Report(env, inp) => ReportRequest(env, inp, snap, seqNo)
    case Raw(fields, stamped) =>
      Some(NodeWrite(if stamped then fields[ReportSeq := JNum(seqNo)] else fields, false, false))
    case _ => None
  }

  /** Events whose late write must not move a stop state. */
  predicate Protected(j: Job) {
    || (j.Fast? && j.fast.event.PostToolUse?)
    || (j.Report? && (j.report.event.SubagentStop? || (j.report.event.Stop? && j.report.hasPendingTool)))
  }

  // ----- the shared state -----

  /** A file is Torn between its creation and its write. */
  datatype Content = Torn | Full(rec: Record)

  /** Goroutines of one dashboard process share one temporary name; every hook call has its own. */
  datatype TmpName = NodeTmp(pid: Pid) | GoTmp(osPid: nat)

  datatype Lock = Lock(owner: Pid, mtime: nat)

  /** One rename of a merged record over the file. */
  datatype Commit = Commit(pid: Pid, w: Write, base: Option<Record>, at: nat, out: Record)

  datatype Outcome = Quiet | TimedOut(w: Write) | Failed(w: Write) | Refused(w: Write) | Landed(w: Write)

  datatype Pc =
    | Start
    | Entered(seqNo: int)
    | Trying(w: Write, attempt: nat)
    | Contended(w: Write, attempt: nat)
    | SawStale(w: Write, attempt: nat)
    | Locked(since: nat, w: Write)
    | Decided(since: nat, c: Commit)
    | TmpCreated(since: nat, c: Commit)
    | TmpWritten(since: nat, c: Commit)
    | Releasing(since: nat, outcome: Outcome)
    | Finished(outcome: Outcome)

  datatype Proc = Proc(job: Job, pc: Pc)

  /** `log`, `deleted` and the lock's `owner` are history: no step depends on them. */
  datatype Sys = Sys(clock: nat, disk: Option<Content>, tmp: map<TmpName, Content>, lock: Option<Lock>,
                     procs: map<Pid, Proc>, log: seq<Commit>, deleted: bool)

  const STALE_MS := 5000
  const MAX_RETRIES := 400

  /** What any reader, locked or not, gets from the file. */
  function Read(c: Option<Content>): Option<Record> {
    match c
    case Some(Full(r)) => Some(r)
    case _ => None
  }

  function TmpOf(p: Pid, j: Job): TmpName {
    match j
    case Stamp(osPid, _, _) => GoTmp(osPid)
    case Pin(osPid, _) => GoTmp(osPid)
    case _ => NodeTmp(p)
  }

  predicate Critical(pc: Pc) {
    pc.Locked? || pc.Decided? || pc.TmpCreated? || pc.TmpWritten? || pc.Releasing?
  }

  predicate HasCommit(pc: Pc) { pc.Decided? || pc.TmpCreated? || pc.TmpWritten? }

  // ----- steps -----

  datatype Event =
    | Step(p: Pid)
    | Fail(p: Pid, cleanup: bool)  // writing or renaming the temporary file fails
    | Tick(ms: nat)
    | Delete                       // the record is unlinked, without the lock

  function Goto(s: Sys, p: Pid, pc: Pc): Sys
    requires p in s.procs
  {
    s.(procs := s.procs[p := s.procs[p].(pc := pc)])
  }

  /** One step of a process that does not hold the lock. */
  function Approach(s: Sys, p: Pid): (s': Sys)
    requires p in s.procs && !Critical(s.procs[p].pc)
    ensures s'.procs.Keys == s.procs.Keys
  {
    var Proc(job, pc) := s.procs[p];
    match pc
    case Start =>
      if FromDashboard(job) then Goto(s, p, Trying(GoWrite(DashboardUpdate(job)), 0))
      else Goto(s, p, Entered(s.clock * SEQ_SCALE))
    case Entered(seqNo) =>
      (match Request(job, Read(s.disk).Or(map[], (r: Record) => r), seqNo)
       case None => Goto(s, p, Finished(Quiet))
       case Some(w) => Goto(s, p, Trying(w, 0)))
    case Trying(w, attempt) =>
      if attempt >= MAX_RETRIES then Goto(s, p, Finished(TimedOut(w)))
      else if s.lock.None? then Goto(s, p, Locked(s.clock, w)).(lock := Some(Lock(p, s.clock)))
      else Goto(s, p, Contended(w, attempt))
    case Contended(w, attempt) =>
      if s.lock.Some? && s.clock > s.lock.value.mtime + STALE_MS then Goto(s, p, SawStale(w, attempt))
      else Goto(s, p, Trying(w, attempt + 1))
    case SawStale(w, attempt) => Goto(s, p, Trying(w, attempt + 1)).(lock := None)
    case _ => s
  }

  /** One step of a lock holder. */
  function Hold(s: Sys, p: Pid): (s': Sys)
    requires p in s.procs && Critical(s.procs[p].pc)
    ensures s'.procs.Keys == s.procs.Keys
  {
    var Proc(job, pc) := s.procs[p];
    var name := TmpOf(p, job);
    match pc
    case Locked(since, w) =>
      (match Merge(Read(s.disk), w, s.clock)
       case None => Goto(s, p, Releasing(since, Refused(w)))
       case Some(out) => Goto(s, p, Decided(since, Commit(p, w, Read(s.disk), s.clock, out))))
    case Decided(since, c) => Goto(s, p, TmpCreated(since, c)).(tmp := s.tmp[name := Torn])
    case TmpCreated(since, c) => Goto(s, p, TmpWritten(since, c)).(tmp := s.tmp[name := Full(c.out)])
    case TmpWritten(since, c) =>
      if name in s.tmp then
        Goto(s, p, Releasing(since, Landed(c.w))).(disk := Some(s.tmp[name]), tmp := s.tmp - {name}, log := s.log + [c])
      else Goto(s, p, Releasing(since, Failed(c.w)))
    case Releasing(_, outcome) => Goto(s, p, Finished(outcome)).(lock := None)
  }

  function StepProc(s: Sys, p: Pid): (s': Sys)
    requires p in s.procs
    ensures s'.procs.Keys == s.procs.Keys
  {
    if Critical(s.procs[p].pc) then Hold(s, p) else Approach(s, p)
  }

  /** A disabled event leaves the state as it is. */
  function Next(s: Sys, ev: Event): Sys {
    match ev
    case Tick(ms) => s.(clock := s.clock + ms)
    case Delete => s.(disk := None, deleted := true)
    case Step(p) => if p in s.procs then StepProc(s, p) else s
    case Fail(p, cleanup) =>
      if p in s.procs && HasCommit(s.procs[p].pc) then
        var pc := s.procs[p].pc;
        Goto(s, p, Releasing(pc.since, Failed(pc.c.w))).(
          tmp := if cleanup then s.tmp - {TmpOf(p, s.procs[p].job)} else s.tmp)
      else s
  }

  function Exec(s: Sys, evs: seq<Event>): Sys {
    if evs == [] then s else Next(Exec(s, evs[..|evs| - 1]), evs[|evs| - 1])
  }

  /** Any finite set of processes, none of which has begun; any record or none on disk; any
      temporary files left behind. */
  ghost predicate Init(s: Sys) {
    && s.lock == None && s.log == [] && !s.deleted
    && (s.disk.Some? ==> s.disk.value.Full?)
    && forall p <- s.procs :: s.procs[p].pc == Start && ValidJob(s.procs[p].job)
  }

  /** No lock holder has stayed longer than the bound. */
  ghost predicate PromptWithin(s: Sys, bound: nat) {
    forall p <- s.procs :: Critical(s.procs[p].pc) ==> s.clock <= s.procs[p].pc.since + bound
  }

  /** No lock holder outlives the stale bound. */
  ghost predicate Prompt(s: Sys) { PromptWithin(s, STALE_MS) }

  /** ... at any point of a run. */
  ghost predicate PromptRun(s: Sys, evs: seq<Event>) {
    forall k | 0 <= k <= |evs| :: Prompt(Exec(s, evs[..k]))
  }

  // ----- the invariant -----

  function WriteOf(pc: Pc): Option<Write> {
    match pc
    case Trying(w, _) => Some(w)
    case Contended(w, _) => Some(w)
    case SawStale(w, _) => Some(w)
    case Locked(_, w) => Some(w)
    case Decided(_, c) => Some(c.w)
    case TmpCreated(_, c) => Some(c.w)
    case TmpWritten(_, c) => Some(c.w)
    case Releasing(_, o) => if o.Quiet? then None else Some(o.w)
    case Finished(o) => if o.Quiet? then None else Some(o.w)
    case _ => None
  }

  /** The write of a SubagentStop that found no pending tool and counts the subagents down to none. */
  predicate IsFinalStop(j: Job, w: Write) {
    && j.Report? && j.report.event.SubagentStop? && !j.report.hasPendingTool
    && Get(w.update, SubagentCount) == Some(JNum(0))
  }

  /** The fields a job with a fixed request asks for: it does not look at the record. */
  predicate IsFixedRequest(j: Job, w: Write) {
    match j
    case Pin(_, pinned) => w == GoWrite(map[PinnedState := JStr(pinned)])
    case Stamp(_, cwd, branch) =>
      && w.GoWrite? && w.update.Keys <= {WorktreeCwd, Branch}
      && Get(w.update, WorktreeCwd) == cwd.Or(None, (s: string) => Some(JStr(s)))
      && Get(w.update, Branch) == branch.Or(None, (s: string) => Some(JStr(s)))
    case Raw(fields, stamped) =>
      && w.NodeWrite? && !w.guard && !w.preserve
      && w.update - {ReportSeq} == fields && (ReportSeq in w.update <==> stamped)
    case _ => true
  }

  /** What is known of a write a job asks for. */
  predicate WriteOk(j: Job, w: Write, clock: nat) {
    && (Protected(j) ==> w.NodeWrite? && (w.guard || State !in w.update))
    && (j.Fast? || j.Report? ==> PinnedState !in w.update)
    && (ReportSeq in w.update ==>
          w.NodeWrite? && SeqOf(w.update).Some? && SeqOf(w.update).value <= clock * SEQ_SCALE)
    && (IsFinalStop(j, w) <==> w.NodeWrite? && w.preserve)
    && (w.NodeWrite? && w.preserve ==> w.guard)
    && IsFixedRequest(j, w)
  }

  lemma RequestOk(j: Job, snap: Record, seqNo: int, clock: nat)
    requires ValidJob(j) && seqNo <= clock * SEQ_SCALE
    requires Request(j, snap, seqNo).Some?
    ensures WriteOk(j, Request(j, snap, seqNo).value, clock)
  {
    match j
    case Fast(env, inp) => FastOk(env, inp, snap, seqNo, clock);
    case Report(env, inp) => ReportOk(env, inp, snap, seqNo, clock);
    case _ =>
  }

  lemma FastOk(env: Env, inp: FastInput, snap: Record, seqNo: int, clock: nat)
    requires ValidFast(inp) && seqNo <= clock * SEQ_SCALE && FastRequest(env, inp, snap, seqNo).Some?
    ensures WriteOk(Fast(env, inp), FastRequest(env, inp, snap, seqNo).value, clock)
  {
    hide FastUpdate;
    FastUpdateFields(env, inp, snap);
  }

  lemma ReportOk(env: Env, inp: ReportInput, snap: Record, seqNo: int, clock: nat)
    requires ValidReport(inp) && seqNo <= clock * SEQ_SCALE && ReportRequest(env, inp, snap, seqNo).Some?
    ensures WriteOk(Report(env, inp), ReportRequest(env, inp, snap, seqNo).value, clock)
  {
    hide ReportEntry, ReportChanged;
    ReportEntryFields(env, inp, snap);
  }

  lemma DashboardOk(j: Job, clock: nat)
    requires FromDashboard(j)
    ensures WriteOk(j, GoWrite(DashboardUpdate(j)), clock)
  {
  }

  /** What holds of each process by itself, given the lock and the clock. */
  ghost predicate LocalInv(p: Pid, pr: Proc, lock: Option<Lock>, clock: nat) {
    && ValidJob(pr.job)
    && !pr.pc.SawStale?
    && (pr.pc.Entered? ==> pr.pc.seqNo <= clock * SEQ_SCALE)
    && (WriteOf(pr.pc).Some? ==> WriteOk(pr.job, WriteOf(pr.pc).value, clock))
    && (Critical(pr.pc) ==> lock == Some(Lock(p, pr.pc.since)))
  }

  /** The commit the lock holder is preparing: computed from what the file still holds, unless
      the file was unlinked meanwhile, and complete in its own temporary file once written. */
  ghost predicate HolderInv(p: Pid, pr: Proc, s: Sys) {
    HasCommit(pr.pc) ==>
      var c := pr.pc.c;
      && c.pid == p
      && c.at <= s.clock
      && Merge(c.base, c.w, c.at) == Some(c.out)
      && (Read(s.disk) == c.base || s.disk == None)
      && (!s.deleted ==> Read(s.disk) == c.base)
      && (pr.pc.TmpWritten? && TmpOf(p, pr.job) in s.tmp ==> s.tmp[TmpOf(p, pr.job)] == Full(c.out))
  }

  ghost predicate LockInv(s: Sys) {
    s.lock.Some? ==>
      var p := s.lock.value.owner;
      p in s.procs && Critical(s.procs[p].pc) && HolderInv(p, s.procs[p], s)
  }

  ghost predicate ProcsInv(s: Sys) {
    forall p <- s.procs :: LocalInv(p, s.procs[p], s.lock, s.clock)
  }

  function After(init: Option<Record>, log: seq<Commit>): Option<Record> {
    if log == [] then init else Some(log[|log| - 1].out)
  }

  predicate HasLanded(pc: Pc, w: Write) {
    (pc.Finished? || pc.Releasing?) && pc.outcome == Landed(w)
  }

  /** The k-th commit merged onto what the commit before it left. */
  ghost predicate CommitInv(s: Sys, init: Option<Record>, k: nat)
    requires k < |s.log|
  {
    var c := s.log[k];
    && c.at <= s.clock
    && Merge(c.base, c.w, c.at) == Some(c.out)
    && (!s.deleted ==> c.base == After(init, s.log[..k]))
    && c.pid in s.procs
    && WriteOk(s.procs[c.pid].job, c.w, s.clock)
    && HasLanded(s.procs[c.pid].pc, c.w)
  }

  ghost predicate CommitsInv(s: Sys, init: Option<Record>) {
    forall k | 0 <= k < |s.log| :: CommitInv(s, init, k)
  }

  ghost predicate Produced(log: seq<Commit>, init: Option<Record>, r: Record) {
    Some(r) == init || exists k | 0 <= k < |log| :: log[k].out == r
  }

  ghost predicate DiskInv(s: Sys, init: Option<Record>) {
    && (s.disk.Some? ==> s.disk.value.Full? && Produced(s.log, init, s.disk.value.rec))
    && (!s.deleted ==> Read(s.disk) == After(init, s.log))
  }

  ghost predicate Inv(s: Sys, init: Option<Record>) {
    ProcsInv(s) && LockInv(s) && DiskInv(s, init) && CommitsInv(s, init)
  }

  lemma InitInv(s: Sys)
    requires Init(s)
    ensures Inv(s, Read(s.disk))
  {
  }

  // ----- one step keeps the invariant -----

  /** Outside the critical section a step changes its own program counter and at most takes a
      free lock. */
  lemma ApproachFrame(s: Sys, p: Pid)
    requires p in s.procs && !Critical(s.procs[p].pc)
    ensures var s' := Approach(s, p);
            && s' == s.(procs := s.procs[p := Proc(s.procs[p].job, s'.procs[p].pc)], lock := s'.lock)
            && (!s.procs[p].pc.SawStale? && s.lock.Some? ==> s'.lock == s.lock)
            && (s.procs[p].pc.Finished? ==> s' == s)
            && !HasCommit(s'.procs[p].pc) && !s'.procs[p].pc.Releasing?
            && (s'.procs[p].pc.Locked? ==> s.procs[p].pc.Trying? && s.lock.None?)
  {
    hide Request;
  }

  /** The write a process carries comes from its job and stays the same on the way to the lock. */
  lemma ApproachWrite(s: Sys, p: Pid)
    requires p in s.procs && !Critical(s.procs[p].pc)
    ensures var job, pc, pc' := s.procs[p].job, s.procs[p].pc, Approach(s, p).procs[p].pc;
            WriteOf(pc') ==
              if pc.Start? then if FromDashboard(job) then Some(GoWrite(DashboardUpdate(job))) else None
              else if pc.Entered? then Request(job, Read(s.disk).Or(map[], (r: Record) => r), pc.seqNo)
              else WriteOf(pc)
  {
    hide Request, DashboardUpdate;
  }

  lemma ApproachPc(s: Sys, p: Pid)
    requires p in s.procs && !Critical(s.procs[p].pc)
    ensures var pc, pc' := s.procs[p].pc, Approach(s, p).procs[p].pc;
            && (pc'.Entered? ==> pc' == Entered(s.clock * SEQ_SCALE))
            && (pc'.SawStale? ==> pc.Contended? && s.lock.Some? && s.clock > s.lock.value.mtime + STALE_MS)
            && (pc'.Locked? ==> pc'.since == s.clock && Approach(s, p).lock == Some(Lock(p, s.clock)))
  {
    hide Request, DashboardUpdate;
  }

  /** Only the rename changes the file. */
  lemma HoldFrame(s: Sys, p: Pid)
    requires p in s.procs && Critical(s.procs[p].pc)
    ensures var s' := Hold(s, p);
            var pc, name := s.procs[p].pc, TmpOf(p, s.procs[p].job);
            && s'.procs == s.procs[p := Proc(s.procs[p].job, s'.procs[p].pc)]
            && s'.clock == s.clock && s'.deleted == s.deleted
            && s'.disk == (if pc.TmpWritten? && name in s.tmp then Some(s.tmp[name]) else s.disk)
            && s'.log == (if pc.TmpWritten? && name in s.tmp then s.log + [pc.c] else s.log)
            && s'.lock == (if pc.Releasing? then None else s.lock)
  {
    hide Merge;
  }

  lemma HoldLanded(s: Sys, p: Pid, w: Write)
    requires p in s.procs && Critical(s.procs[p].pc) && HasLanded(s.procs[p].pc, w)
    ensures HasLanded(Hold(s, p).procs[p].pc, w)
  {
    hide Merge;
  }

  /** A step changes one program counter; outside the critical section it touches nothing
      else, except to take a free lock. */
  lemma StepFrame(s: Sys, p: Pid)
    requires p in s.procs
    ensures var s' := StepProc(s, p);
            var pc, name := s.procs[p].pc, TmpOf(p, s.procs[p].job);
            && s'.procs == s.procs[p := Proc(s.procs[p].job, s'.procs[p].pc)]
            && s'.clock == s.clock && s'.deleted == s.deleted
            && (!Critical(pc) && !pc.SawStale? && s.lock.Some? ==> s'.lock == s.lock)
            && s'.disk == (if pc.TmpWritten? && name in s.tmp then Some(s.tmp[name]) else s.disk)
            && s'.log == (if pc.TmpWritten? && name in s.tmp then s.log + [pc.c] else s.log)
            && (forall w :: HasLanded(pc, w) ==> HasLanded(s'.procs[p].pc, w))
  {
    hide Approach, Hold;
    if Critical(s.procs[p].pc) {
      HoldFrame(s, p);
      forall w | HasLanded(s.procs[p].pc, w) ensures HasLanded(Hold(s, p).procs[p].pc, w) { HoldLanded(s, p, w); }
    } else {
      ApproachFrame(s, p);
    }
  }

  /** A held lock is never older than the bound, so no waiter takes it for abandoned. */
  lemma YoungLock(s: Sys)
    requires ProcsInv(s) && LockInv(s) && Prompt(s) && s.lock.Some?
    ensures s.clock <= s.lock.value.mtime + STALE_MS
  {
    var p := s.lock.value.owner;
    assert LocalInv(p, s.procs[p], s.lock, s.clock);
  }

  /** A process on its way to the lock cannot reach the stale branch, and its requests are sound. */
  lemma ApproachLocal(s: Sys, p: Pid)
    requires p in s.procs && !Critical(s.procs[p].pc) && LocalInv(p, s.procs[p], s.lock, s.clock)
    requires s.lock.Some? ==> s.clock <= s.lock.value.mtime + STALE_MS
    ensures var s' := Approach(s, p); LocalInv(p, s'.procs[p], s'.lock, s'.clock)
  {
    hide ValidJob, Request, WriteOk, WriteOf, Approach;
    var Proc(job, pc) := s.procs[p];
    ApproachFrame(s, p);
    ApproachWrite(s, p);
    ApproachPc(s, p);
    if pc.Entered? {
      var snap := Read(s.disk).Or(map[], (r: Record) => r);
      if Request(job, snap, pc.seqNo).Some? { RequestOk(job, snap, pc.seqNo, s.clock); }
    } else if pc.Start? && FromDashboard(job) {
      DashboardOk(job, s.clock);
    }
  }

  lemma HoldLocal(s: Sys, p: Pid)
    requires p in s.procs && Critical(s.procs[p].pc) && LocalInv(p, s.procs[p], s.lock, s.clock)
    ensures var s' := Hold(s, p); LocalInv(p, s'.procs[p], s'.lock, s'.clock)
  {
    hide Merge, ValidJob, WriteOk;
  }

  lemma StepLocal(s: Sys, p: Pid)
    requires p in s.procs && LocalInv(p, s.procs[p], s.lock, s.clock)
    requires s.lock.Some? ==> s.clock <= s.lock.value.mtime + STALE_MS
    ensures var s' := StepProc(s, p); LocalInv(p, s'.procs[p], s'.lock, s'.clock)
  {
    hide Approach, Hold, LocalInv;
    if Critical(s.procs[p].pc) { HoldLocal(s, p); } else { ApproachLocal(s, p); }
  }

  lemma StepKeepsProcs(s: Sys, p: Pid)
    requires p in s.procs && ProcsInv(s) && LockInv(s) && Prompt(s)
    ensures ProcsInv(StepProc(s, p))
  {
    hide StepProc, Prompt, HolderInv;
    assert LocalInv(p, s.procs[p], s.lock, s.clock);
    StepFrame(s, p);
    if s.lock.Some? { YoungLock(s); }
    StepLocal(s, p);
    var s' := StepProc(s, p);
    forall q <- s'.procs ensures LocalInv(q, s'.procs[q], s'.lock, s'.clock) {
      assert LocalInv(q, s.procs[q], s.lock, s.clock) && LocalInv(p, s.procs[p], s.lock, s.clock);
    }
  }

  lemma HolderSteps(s: Sys, p: Pid)
    requires p in s.procs && Critical(s.procs[p].pc) && HolderInv(p, s.procs[p], s)
    ensures var s' := Hold(s, p); HolderInv(p, s'.procs[p], s')
    ensures Critical(Hold(s, p).procs[p].pc) || s.procs[p].pc.Releasing?
  {
    hide Merge;
  }

  lemma StepKeepsLock(s: Sys, p: Pid)
    requires p in s.procs && LockInv(s) && LocalInv(p, s.procs[p], s.lock, s.clock)
    ensures LockInv(StepProc(s, p))
  {
    hide Approach, Hold, ValidJob, WriteOk, Merge;
    if Critical(s.procs[p].pc) {
      HoldFrame(s, p);
      HolderSteps(s, p);
    } else {
      ApproachFrame(s, p);
      ApproachTakes(s, p);
    }
  }

  /** A lock that appears belongs to the process that stepped, which now holds it. */
  lemma ApproachTakes(s: Sys, p: Pid)
    requires p in s.procs && !Critical(s.procs[p].pc)
    ensures var s' := Approach(s, p);
            || s'.lock == s.lock || s'.lock == None
            || (s'.lock.value.owner == p && s'.procs[p].pc.Locked?)
  {
    hide Request;
  }

  lemma StepKeepsDisk(s: Sys, p: Pid, init: Option<Record>)
    requires p in s.procs && DiskInv(s, init) && LockInv(s) && LocalInv(p, s.procs[p], s.lock, s.clock)
    ensures DiskInv(StepProc(s, p), init)
  {
    hide StepProc, Merge, ValidJob, WriteOk;
    StepFrame(s, p);
    var s' := StepProc(s, p);
    if s'.log != s.log {
      assert s'.log[|s.log|] == s.procs[p].pc.c;
    }
    forall r | Produced(s.log, init, r) ensures Produced(s'.log, init, r) {
      if k :| 0 <= k < |s.log| && s.log[k].out == r { assert s'.log[k].out == r; }
    }
  }

  /** An old commit stays accounted for. */
  lemma OldCommit(s: Sys, s': Sys, init: Option<Record>, k: nat)
    requires k < |s.log| <= |s'.log| && s'.log[..|s.log|] == s.log
    requires CommitInv(s, init, k)
    requires s.clock <= s'.clock && (s.deleted ==> s'.deleted)
    requires s.log[k].pid in s'.procs
    requires s'.procs[s.log[k].pid].job == s.procs[s.log[k].pid].job
    requires HasLanded(s'.procs[s.log[k].pid].pc, s.log[k].w)
    ensures CommitInv(s', init, k)
  {
    assert s'.log[k] == s.log[k] && s'.log[..k] == s.log[..k];
  }

  /** The rename accounts for the commit it logs. */
  lemma NewCommit(s: Sys, p: Pid, init: Option<Record>)
    requires p in s.procs && s.procs[p].pc.TmpWritten? && TmpOf(p, s.procs[p].job) in s.tmp
    requires DiskInv(s, init) && LockInv(s) && LocalInv(p, s.procs[p], s.lock, s.clock)
    ensures |StepProc(s, p).log| == |s.log| + 1 && CommitInv(StepProc(s, p), init, |s.log|)
  {
    hide Merge, ValidJob, Request;
    assert StepProc(s, p).log[..|s.log|] == s.log;
  }

  lemma StepKeepsCommits(s: Sys, p: Pid, init: Option<Record>)
    requires p in s.procs && DiskInv(s, init) && LockInv(s) && LocalInv(p, s.procs[p], s.lock, s.clock)
    requires CommitsInv(s, init)
    ensures CommitsInv(StepProc(s, p), init)
  {
    StepFrame(s, p);
    var s' := StepProc(s, p);
    if s.procs[p].pc.TmpWritten? && TmpOf(p, s.procs[p].job) in s.tmp { NewCommit(s, p, init); }
    assert s'.log[..|s.log|] == s.log;
    assert |s'.log| > |s.log| ==> CommitInv(s', init, |s.log|);
    hide StepProc, LocalInv, LockInv, DiskInv;
    forall k | 0 <= k < |s.log| ensures CommitInv(s', init, k) {
      assert CommitInv(s, init, k);
      OldCommit(s, s', init, k);
    }
  }

  lemma EnvironmentInv(s: Sys, ev: Event, init: Option<Record>)
    requires Inv(s, init) && !ev.Step?
    ensures Inv(Next(s, ev), init)
  {
    hide Next, LocalInv, LockInv, DiskInv, CommitInv;
    var s' := Next(s, ev);
    EnvironmentOnly(s, ev);
    EnvironmentParts(s, ev, init);
    forall k | 0 <= k < |s.log| ensures CommitInv(s', init, k) {
      assert CommitInv(s, init, k);
      CommitOwner(s, init, k);
      OldCommit(s, s', init, k);
    }
  }

  lemma CommitOwner(s: Sys, init: Option<Record>, k: nat)
    requires k < |s.log| && CommitInv(s, init, k)
    ensures s.log[k].pid in s.procs && HasLanded(s.procs[s.log[k].pid].pc, s.log[k].w)
  {
  }

  lemma EnvironmentParts(s: Sys, ev: Event, init: Option<Record>)
    requires Inv(s, init) && !ev.Step?
    ensures var s' := Next(s, ev); ProcsInv(s') && LockInv(s') && DiskInv(s', init)
  {
    hide Merge, ValidJob, CommitInv;
  }

  /** Time, failures and deletions leave the log, and every landed write, as they are. */
  lemma EnvironmentOnly(s: Sys, ev: Event)
    requires !ev.Step?
    ensures var s' := Next(s, ev);
            && s'.log == s.log && s.clock <= s'.clock && (s.deleted ==> s'.deleted) && s'.procs.Keys == s.procs.Keys
            && (forall p <- s.procs :: s'.procs[p].job == s.procs[p].job)
            && (forall p <- s.procs :: forall w :: HasLanded(s.procs[p].pc, w) ==> s'.procs[p].pc == s.procs[p].pc)
  {
  }

  /** Every event keeps the invariant as long as no holder outlives the bound. */
  lemma NextInv(s: Sys, ev: Event, init: Option<Record>)
    requires Inv(s, init) && Prompt(s)
    ensures Inv(Next(s, ev), init)
  {
    hide StepProc, LocalInv, LockInv, DiskInv, CommitInv, Prompt;
    if ev.Step? && ev.p in s.procs {
      StepInv(s, ev.p, init);
    } else if !ev.Step? {
      EnvironmentInv(s, ev, init);
    }
  }

  lemma StepInv(s: Sys, p: Pid, init: Option<Record>)
    requires p in s.procs && Inv(s, init) && Prompt(s)
    ensures Inv(StepProc(s, p), init)
  {
    hide StepProc, LocalInv, LockInv, DiskInv, CommitInv, Prompt;
    assert LocalInv(p, s.procs[p], s.lock, s.clock);
    StepKeepsProcs(s, p);
    StepKeepsLock(s, p);
    StepKeepsDisk(s, p, init);
    StepKeepsCommits(s, p, init);
  }
}
