/** No caller of the protocol waits forever, and nothing of it is left behind. */
module StateProgress {
  import opened Options
  import opened AgentRecord
  import opened Hooks
  import opened StateProtocol
  import opened StateTheorems

  /** How many of its own steps a process can still take. */
  function Rank(pc: Pc): nat {
    match pc
    case Start => 3 * MAX_RETRIES + 8
    case Entered(_) => 3 * MAX_RETRIES + 7
    case Trying(_, attempt) => 3 * Max0(MAX_RETRIES - attempt) + 6
    case Contended(_, attempt) => 3 * Max0(MAX_RETRIES - attempt) + 5
    case SawStale(_, attempt) => 3 * Max0(MAX_RETRIES - attempt) + 4
    case Locked(_, _) => 5
    case Decided(_, _) => 4
    case TmpCreated(_, _) => 3
    case TmpWritten(_, _) => 2
    case Releasing(_, _) => 1
    case Finished(_) => 0
  }

  /** Only an attempt within the budget looks at somebody else's lock. */
  predicate WithinBudget(pc: Pc) {
    (pc.Contended? || pc.SawStale?) ==> pc.attempt < MAX_RETRIES
  }

  lemma OwnStepCounts(s: Sys, p: Pid)
    requires p in s.procs && WithinBudget(s.procs[p].pc)
    ensures var pc, pc' := s.procs[p].pc, StepProc(s, p).procs[p].pc;
            WithinBudget(pc') && (if pc.Finished? then pc' == pc else Rank(pc') < Rank(pc))
  {
    hide Approach, Hold;
    if Critical(s.procs[p].pc) { HoldCounts(s, p); } else { ApproachCounts(s, p); }
  }

  lemma ApproachCounts(s: Sys, p: Pid)
    requires p in s.procs && !Critical(s.procs[p].pc) && WithinBudget(s.procs[p].pc)
    ensures var pc, pc' := s.procs[p].pc, Approach(s, p).procs[p].pc;
            WithinBudget(pc') && (if pc.Finished? then pc' == pc else Rank(pc') < Rank(pc))
  {
    hide Approach;
    var pc := s.procs[p].pc;
    if pc.Start? || pc.Entered? || pc.Finished? { EntryCounts(s, p); } else { WaitCounts(s, p); }
  }

  lemma EntryCounts(s: Sys, p: Pid)
    requires p in s.procs && (s.procs[p].pc.Start? || s.procs[p].pc.Entered? || s.procs[p].pc.Finished?)
    ensures var pc, pc' := s.procs[p].pc, Approach(s, p).procs[p].pc;
            WithinBudget(pc') && (if pc.Finished? then pc' == pc else Rank(pc') < Rank(pc))
  {
    hide Request, DashboardUpdate;
  }

  lemma WaitCounts(s: Sys, p: Pid)
    requires p in s.procs && (s.procs[p].pc.Trying? || s.procs[p].pc.Contended? || s.procs[p].pc.SawStale?)
    requires WithinBudget(s.procs[p].pc)
    ensures var pc' := Approach(s, p).procs[p].pc; WithinBudget(pc') && Rank(pc') < Rank(s.procs[p].pc)
  {
    hide Request, DashboardUpdate, Read;
  }

  lemma HoldCounts(s: Sys, p: Pid)
    requires p in s.procs && Critical(s.procs[p].pc)
    ensures var pc' := Hold(s, p).procs[p].pc; WithinBudget(pc') && Rank(pc') < Rank(s.procs[p].pc)
  {
    hide Merge;
  }

  /** What anybody else does never sends a process back. */
  lemma OtherEventsKeep(s: Sys, ev: Event, p: Pid)
    requires p in s.procs && WithinBudget(s.procs[p].pc) && ev != Step(p)
    ensures p in Next(s, ev).procs
    ensures var pc' := Next(s, ev).procs[p].pc; WithinBudget(pc') && Rank(pc') <= Rank(s.procs[p].pc)
  {
    hide StepProc;
    if ev.Step? && ev.p in s.procs { StepFrame(s, ev.p); }
  }

  function OwnSteps(evs: seq<Event>, p: Pid): nat {
    if evs == [] then 0 else OwnSteps(evs[..|evs| - 1], p) + if evs[|evs| - 1] == Step(p) then 1 else 0
  }

  lemma {:induction false} RanksFall(s0: Sys, evs: seq<Event>, p: Pid)
    requires p in s0.procs && s0.procs[p].pc.Start?
    ensures p in Exec(s0, evs).procs
    ensures var pc := Exec(s0, evs).procs[p].pc;
            WithinBudget(pc) && (pc.Finished? || Rank(pc) + OwnSteps(evs, p) <= Rank(Start))
  {
    hide StepProc, Next;
    if evs != [] {
      var n := |evs| - 1;
      RanksFall(s0, evs[..n], p);
      var s := Exec(s0, evs[..n]);
      if evs[n] == Step(p) {
        StepIsStep(s, p);
        OwnStepCounts(s, p);
      } else {
        OtherEventsKeep(s, evs[n], p);
        OnlyFinishedIsZero(s.procs[p].pc);
        OnlyFinishedIsZero(Next(s, evs[n]).procs[p].pc);
      }
    }
  }

  lemma StepIsStep(s: Sys, p: Pid)
    requires p in s.procs
    ensures Next(s, Step(p)) == StepProc(s, p)
  {
    hide StepProc;
  }

  lemma OnlyFinishedIsZero(pc: Pc)
    ensures Rank(pc) == 0 <==> pc.Finished?
  {
  }

  /** In every run whatever, prompt or not, a process is through after at most 1208 steps of its
      own: the retry budget bounds the wait for the lock. */
  lemma CallsEnd(s0: Sys, evs: seq<Event>, p: Pid)
    requires Init(s0) && p in s0.procs && OwnSteps(evs, p) >= 3 * MAX_RETRIES + 8
    ensures p in Exec(s0, evs).procs && Exec(s0, evs).procs[p].pc.Finished?
  {
    RanksFall(s0, evs, p);
    OnlyFinishedIsZero(Exec(s0, evs).procs[p].pc);
  }

  /** Once every process is through, no lock is left, and the file holds the replay of all writes
      that landed. */
  lemma NothingLeftBehind(s0: Sys, evs: seq<Event>)
    requires Init(s0) && PromptRun(s0, evs)
    requires forall p <- Exec(s0, evs).procs :: Exec(s0, evs).procs[p].pc.Finished?
    ensures Exec(s0, evs).lock == None
    ensures NoDelete(evs) ==> Read(Exec(s0, evs).disk) == Replay(Read(s0.disk), Exec(s0, evs).log)
  {
    Reach(s0, evs);
    if NoDelete(evs) { CommitsSerialize(s0, evs); }
  }
}
