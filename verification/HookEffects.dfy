/** What one uninterrupted run of a hook leaves on the record, for every input and every record. */
module HookEffects {
  import opened Options
  import opened AgentRecord
  import opened Hooks
  import opened HookSequences

  // ----- the fast hook -----

  /** The hook leaves this event to the one that watches for pull requests. */
  predicate Yields(inp: FastInput) { inp.event.PostToolUse? && inp.tool == "Bash" && inp.prCommand }

  /** A late event: the tool is done, and the agent has stopped since. */
  predicate Late(inp: FastInput, r: Record) { inp.event.PostToolUse? && InStopState(r) }

  /** Field by field, what the hook asks for is what the record holds afterwards. */
  lemma RunLeaves(env: Env, inp: FastInput, r: Record, now: int, f: Field)
    requires NotAhead(r, now) && ValidFast(inp) && f !in {ReportSeq, UpdatedAt}
    ensures Yields(inp) || FastUpdate(env, inp, r).None? ==> FastHook(env, inp, r, now) == r
    ensures !Yields(inp) && FastUpdate(env, inp, r).Some? ==>
              var u := FastUpdate(env, inp, r).value;
              Get(FastHook(env, inp, r, now), f) == if f in u then Some(u[f]) else Get(r, f)
    ensures NotAhead(FastHook(env, inp, r, now), now)
  {
    hide FastUpdate, Landed;
    if !Yields(inp) && FastUpdate(env, inp, r).Some? {
      FastUpdateFields(env, inp, r);
      var u := FastUpdate(env, inp, r).value;
      FreshWriteLands(r, u, inp.event.PostToolUse? && Truthy(Get(u, State)), false, now, f);
    } else {
      assert FastHook(env, inp, r, now) == r by { NothingLanded(r, now); }
    }
  }

  lemma NothingLanded(r: Record, now: int)
    ensures Landed(r, None, now) == r
  {
  }

  /** The state on record after one run of the fast hook. */
  lemma StateAfterFastHook(env: Env, inp: FastInput, r: Record, now: int)
    requires NotAhead(r, now) && ValidFast(inp)
    ensures var after := Get(FastHook(env, inp, r, now), State);
            && (inp.event.PreToolUse? || inp.event.PermissionRequest? ==>
                  && (inp.tool == "ExitPlanMode" ==> after == Some(JStr("plan")))
                  && (inp.tool in {"AskUserQuestion", "request_user_input"} ==> after == Some(JStr("question"))))
            && (inp.tool !in {"ExitPlanMode", "AskUserQuestion", "request_user_input"} ==>
                  && (inp.event.PermissionRequest? ==> after == Some(JStr("permission")))
                  && (inp.event.PreToolUse? && inp.tool == "Agent" && inp.subagentType == "Plan" ==>
                        after == Some(JStr("plan")))
                  && (inp.event.PreToolUse? && !(inp.tool == "Agent" && inp.subagentType == "Plan") ==>
                        after == Some(JStr(if Truthy(Get(r, HookBlocked)) then "permission" else "running"))))
            && (inp.event.PostToolUse? ==>
                  after == if Yields(inp) || InStopState(r) then Get(r, State) else Some(JStr("running")))
  {
    hide FullUpdate, FastHook, Truthy;
    RunLeaves(env, inp, r, now, State);
    FullUpdateFields(env, inp, r, SignalsOf(env, inp, r));
    if FastUpdate(env, inp, r).Some? { FastUpdateFields(env, inp, r); }
  }

  /** The one-shot block is used up by the next tool start and by nothing else. */
  lemma BlockAfterFastHook(env: Env, inp: FastInput, r: Record, now: int)
    requires NotAhead(r, now) && ValidFast(inp)
    ensures Get(FastHook(env, inp, r, now), HookBlocked)
         == if inp.event.PreToolUse? && Truthy(Get(r, HookBlocked)) then Some(JStr("")) else Get(r, HookBlocked)
  {
    hide FullUpdate, FastHook, Truthy;
    RunLeaves(env, inp, r, now, HookBlocked);
    FullUpdateSignals(env, inp, r, SignalsOf(env, inp, r));
  }

  /** A question is recorded when it is asked, and dropped when its tool is done or another tool starts,
      past a stop state as well. */
  lemma QuestionAfterFastHook(env: Env, inp: FastInput, r: Record, now: int)
    requires NotAhead(r, now) && ValidFast(inp)
    ensures var asks := inp.tool in {"AskUserQuestion", "request_user_input"};
            var after := Get(FastHook(env, inp, r, now), PendingQuestion);
            after == (if (inp.event.PreToolUse? || inp.event.PermissionRequest?) && asks && inp.questions.Some?
                      then Some(JObj(inp.toolUseId, inp.questions.value))
                      else if ((inp.event.PostToolUse? && asks) || (inp.event.PreToolUse? && !asks))
                              && PendingQuestion in r
                      then Some(JNull)
                      else Get(r, PendingQuestion))
  {
    hide FastUpdate, FastHook;
    QuestionAsked(env, inp, r);
    RunLeaves(env, inp, r, now, PendingQuestion);
  }

  lemma QuestionAsked(env: Env, inp: FastInput, r: Record)
    requires ValidFast(inp)
    ensures var sg, u := SignalsOf(env, inp, r), FastUpdate(env, inp, r);
            && (sg.stampQuestion || sg.clearQuestion ==> u.Some?)
            && (u.Some? ==> Get(u.value, PendingQuestion)
                            == (if sg.stampQuestion then Some(JObj(inp.toolUseId, inp.questions.value))
                                else if sg.clearQuestion then Some(JNull) else None))
  {
    hide FullUpdate;
    var sg := SignalsOf(env, inp, r);
    FullUpdateSignals(env, inp, r, sg);
    var u := GuardedUpdate(sg);
    assert Get(u, PendingQuestion) == if sg.clearQuestion then Some(JNull) else None;
  }

  /** The delegated plan's id is recorded when the subagent starts and dropped by the first later event
      whose state is no plan. */
  lemma PlanIdAfterFastHook(env: Env, inp: FastInput, r: Record, now: int)
    requires NotAhead(r, now) && ValidFast(inp)
    ensures var after := FastHook(env, inp, r, now);
            Get(after, DelegatedPlanToolUseId)
            == (if DelegatesPlan(inp) then Some(JStr(inp.toolUseId))
                else if Get(after, State) == Some(JStr("plan")) || Yields(inp) || Late(inp, r)
                        || !Truthy(Get(r, DelegatedPlanToolUseId))
                then Get(r, DelegatedPlanToolUseId)
                else Some(JStr("")))
  {
    hide FullUpdate, FastHook, Truthy;
    RunLeaves(env, inp, r, now, DelegatedPlanToolUseId);
    RunLeaves(env, inp, r, now, State);
    FullUpdateSignals(env, inp, r, SignalsOf(env, inp, r));
  }

  /** The effort level follows plan mode, past a stop state as well, and is left alone otherwise. */
  lemma EffortAfterFastHook(env: Env, inp: FastInput, r: Record, now: int)
    requires NotAhead(r, now) && ValidFast(inp) && env.planEffort != "" && env.defaultEffort != ""
    ensures var planned := Get(r, PermissionMode) == Some(JStr("plan"));
            var after := Get(FastHook(env, inp, r, now), Effort);
            after == (if env.dynamicEffortOff || inp.permissionMode == "" || Yields(inp) then Get(r, Effort)
                      else if inp.permissionMode == "plan" && !planned then Some(JStr(env.planEffort))
                      else if inp.permissionMode != "plan" && planned
                      then Some(JStr(if env.effortLevel != "" then env.effortLevel else env.defaultEffort))
                      else Get(r, Effort))
  {
    hide FullUpdate, FastHook, FastUpdate, SignalsOf;
    EffortAsked(env, inp, r);
    RunLeaves(env, inp, r, now, Effort);
    SignalledEffort(env, inp, r);
  }

  lemma SignalledEffort(env: Env, inp: FastInput, r: Record)
    ensures SignalsOf(env, inp, r).newEffort == EffortTransition(env, Get(r, PermissionMode), inp.permissionMode)
  {
  }

  lemma EffortAsked(env: Env, inp: FastInput, r: Record)
    requires ValidFast(inp)
    ensures var level, u := SignalsOf(env, inp, r).newEffort, FastUpdate(env, inp, r);
            && (level != "" ==> u.Some? && Get(u.value, Effort) == Some(JStr(level)))
            && (level == "" && u.Some? ==> Effort !in u.value)
  {
    hide FullUpdate, SignalsOf;
    var sg := SignalsOf(env, inp, r);
    FullUpdateSignals(env, inp, r, sg);
    var u := GuardedUpdate(sg);
    assert (sg.newEffort != "" ==> Get(u, Effort) == Some(JStr(sg.newEffort))) && (sg.newEffort == "" ==> Effort !in u);
  }

  lemma FullUpdateTouches(env: Env, inp: FastInput, existing: Record, sg: Signals)
    requires ValidFast(inp)
    ensures FullUpdate(env, inp, existing, sg).Keys
         <= {Target, TmuxPaneId, TmuxServerPid, SessionId, State, CurrentTool, PermissionMode, LastHookEvent, Harness,
             DelegatedPlanToolUseId, PendingQuestion, HookBlocked, Effort}
            + (if inp.worktreePin.Some? then inp.worktreePin.value.Keys else {})
  {
  }

  /** No run touches a field of another writer: past a stop state only three fields may change, and the
      worktree only by a pin. */
  lemma TouchedByFastHook(env: Env, inp: FastInput, r: Record, now: int, f: Field)
    requires NotAhead(r, now) && ValidFast(inp) && f !in {ReportSeq, UpdatedAt, HookBlocked, Effort, PendingQuestion}
    requires Late(inp, r) || f !in {Target, TmuxPaneId, TmuxServerPid, SessionId, State, CurrentTool, PermissionMode,
                                    LastHookEvent, Harness, DelegatedPlanToolUseId}
    requires inp.worktreePin.Some? && f in inp.worktreePin.value ==> Late(inp, r)
    ensures Get(FastHook(env, inp, r, now), f) == Get(r, f)
  {
    hide FullUpdate, FastHook, SignalsOf, FastChanged;
    RunLeaves(env, inp, r, now, f);
    FullUpdateTouches(env, inp, r, SignalsOf(env, inp, r));
  }

  lemma FullUpdateNames(env: Env, inp: FastInput, existing: Record, sg: Signals)
    requires ValidFast(inp)
    ensures var u := FullUpdate(env, inp, existing, sg);
            && Get(u, CurrentTool) == Some(JStr(sg.currentTool))
            && Get(u, LastHookEvent) == Some(JStr(EventName(inp.event)))
            && Get(u, Harness) == Some(JStr(DetectHarness(env, inp.gptModel)))
            && Get(u, TmuxServerPid) == Some(JStr(inp.serverPid))
            && Get(u, Target) == Some(JStr(inp.target)) && Get(u, TmuxPaneId) == Some(JStr(inp.pane))
            && Get(u, SessionId) == Some(JStr(inp.sessionId))
            && (inp.worktreePin.Some? ==>
                  forall f <- inp.worktreePin.value :: Get(u, f) == Some(inp.worktreePin.value[f]))
  {
    hide BaseUpdate, EventName, DetectHarness;
    var base := BaseUpdate(env, inp, existing, sg.state, sg.currentTool);
    BaseNames(env, inp, existing, sg.state, sg.currentTool);
    PinnedNames(base, inp.worktreePin);
  }

  lemma BaseNames(env: Env, inp: FastInput, existing: Record, state: string, currentTool: string)
    ensures var u := BaseUpdate(env, inp, existing, state, currentTool);
            && Get(u, CurrentTool) == Some(JStr(currentTool))
            && Get(u, LastHookEvent) == Some(JStr(EventName(inp.event)))
            && Get(u, Harness) == Some(JStr(DetectHarness(env, inp.gptModel)))
            && Get(u, TmuxServerPid) == Some(JStr(inp.serverPid))
            && Get(u, Target) == Some(JStr(inp.target)) && Get(u, TmuxPaneId) == Some(JStr(inp.pane))
            && Get(u, SessionId) == Some(JStr(inp.sessionId))
  {
    hide KnownMode, EventName, DetectHarness;
  }

  /** A worktree pin changes nothing but the worktree. */
  lemma PinnedNames(base: Record, pin: Option<Record>)
    requires pin.Some? ==> pin.value.Keys <= {WorktreeCwd, Branch}
    ensures var pinned := if pin.Some? then base + pin.value else base;
            && (forall f | f in {CurrentTool, LastHookEvent, Harness, TmuxServerPid, Target, TmuxPaneId, SessionId} ::
                  Get(pinned, f) == Get(base, f))
            && (pin.Some? ==> forall f <- pin.value :: Get(pinned, f) == Some(pin.value[f]))
  {
  }

  /** After a run that the stop states do not hold back, the record names the tool in progress, the mode,
      the harness, the server and the worktree of the event, whether or not it had to be written. */
  lemma NamesAfterFastHook(env: Env, inp: FastInput, r: Record, now: int)
    requires NotAhead(r, now) && ValidFast(inp) && !Yields(inp) && !Late(inp, r)
    ensures var after := FastHook(env, inp, r, now);
            && Get(after, CurrentTool) == Some(JStr(if inp.event.PostToolUse? then "" else inp.tool))
            && (inp.permissionMode != "" ==> Get(after, PermissionMode) == Some(JStr(inp.permissionMode)))
            && Get(after, Harness) == Some(JStr(if env.pluginRoot || inp.gptModel then "codex" else "claude"))
            && StrOr(after, TmuxServerPid, "") == inp.serverPid
            && (inp.worktreePin.Some? ==>
                  forall f <- inp.worktreePin.value :: Get(after, f) == Some(inp.worktreePin.value[f]))
  {
    hide FullUpdate, FastHook, SignalsOf;
    SignalledTool(env, inp, r);
    FullUpdateNames(env, inp, r, SignalsOf(env, inp, r));
    FullUpdateSignals(env, inp, r, SignalsOf(env, inp, r));
    RunLeaves(env, inp, r, now, CurrentTool);
    RunLeaves(env, inp, r, now, PermissionMode);
    RunLeaves(env, inp, r, now, Harness);
    RunLeaves(env, inp, r, now, TmuxServerPid);
    if inp.worktreePin.Some? {
      forall f | f in inp.worktreePin.value
        ensures Get(FastHook(env, inp, r, now), f) == Some(inp.worktreePin.value[f])
      {
        RunLeaves(env, inp, r, now, f);
      }
    }
  }

  lemma SignalledTool(env: Env, inp: FastInput, r: Record)
    ensures SignalsOf(env, inp, r).currentTool == if inp.event.PostToolUse? then "" else inp.tool
  {
  }

  /** A run that writes past the stop states also names its session, target, pane and event. */
  lemma WrittenByFastHook(env: Env, inp: FastInput, r: Record, now: int)
    requires NotAhead(r, now) && ValidFast(inp) && !Late(inp, r) && FastRequest(env, inp, r, now * SEQ_SCALE).Some?
    ensures var after := FastHook(env, inp, r, now);
            && Get(after, SessionId) == Some(JStr(inp.sessionId)) && Get(after, Target) == Some(JStr(inp.target))
            && Get(after, TmuxPaneId) == Some(JStr(inp.pane))
            && (inp.event.PreToolUse? ==> Get(after, LastHookEvent) == Some(JStr("PreToolUse")))
            && (inp.event.PostToolUse? ==> Get(after, LastHookEvent) == Some(JStr("PostToolUse")))
            && (inp.event.PermissionRequest? ==> Get(after, LastHookEvent) == Some(JStr("PermissionRequest")))
  {
    hide FullUpdate, FastHook, SignalsOf, FastChanged;
    FullUpdateNames(env, inp, r, SignalsOf(env, inp, r));
    RunLeaves(env, inp, r, now, SessionId);
    RunLeaves(env, inp, r, now, Target);
    RunLeaves(env, inp, r, now, TmuxPaneId);
    RunLeaves(env, inp, r, now, LastHookEvent);
  }

  /** The same event once more finds nothing to write, unless it carries something to record each time
      or used up a block. */
  lemma RepeatWritesNothing(env: Env, inp: FastInput, r: Record, now: int, later: int)
    requires NotAhead(r, now) && ValidFast(inp) && !Late(inp, r)
    requires inp.permissionMode != "" && inp.worktreePin.None? && !Truthy(Get(r, HookBlocked))
    requires !DelegatesPlan(inp) && !AsksQuestion(inp) && env.planEffort != "" && env.defaultEffort != ""
    ensures FastRequest(env, inp, FastHook(env, inp, r, now), later) == None
  {
    hide FastHook, FastUpdate, Resting, StrOr;
    if !Yields(inp) {
      NamesAfterFastHook(env, inp, r, now);
      BlockAfterFastHook(env, inp, r, now);
      QuestionAfterFastHook(env, inp, r, now);
      PlanIdAfterFastHook(env, inp, r, now);
      StateResolved(env, inp, r, now);
      RestingIs(inp, FastHook(env, inp, r, now));
      NothingNew(env, inp, FastHook(env, inp, r, now));
    }
  }

  /** The event clears a pending question: its tool is done, or another one starts. */
  predicate ClearsQuestion(inp: FastInput) {
    if IsQuestionTool(inp.tool) then inp.event.PostToolUse? else inp.event.PreToolUse?
  }

  /** No block, question or plan id is left for the event to clear. */
  predicate Resting(inp: FastInput, r: Record) {
    && !Truthy(Get(r, HookBlocked))
    && (Truthy(Get(r, DelegatedPlanToolUseId)) ==> Get(r, State) == Some(JStr("plan")))
    && (PendingQuestion in r && r[PendingQuestion] != JNull ==>
          !ClearsQuestion(inp))
  }

  lemma RestingIs(inp: FastInput, r: Record)
    requires !Truthy(Get(r, HookBlocked))
    requires Truthy(Get(r, DelegatedPlanToolUseId)) ==> Get(r, State) == Some(JStr("plan"))
    requires ClearsQuestion(inp) ==> PendingQuestion !in r || r[PendingQuestion] == JNull
    ensures Resting(inp, r)
  {
  }

  lemma StateResolved(env: Env, inp: FastInput, r: Record, now: int)
    requires NotAhead(r, now) && ValidFast(inp) && !Yields(inp) && !Late(inp, r) && !Truthy(Get(r, HookBlocked))
    ensures Get(FastHook(env, inp, r, now), State) == Some(JStr(ResolveState(inp.event, inp.tool, inp.subagentType)))
  {
    hide FullUpdate, FastHook;
    RunLeaves(env, inp, r, now, State);
    FullUpdateFields(env, inp, r, SignalsOf(env, inp, r));
  }

  lemma NothingNew(env: Env, inp: FastInput, r: Record)
    requires Resting(inp, r) && Get(r, State) == Some(JStr(ResolveState(inp.event, inp.tool, inp.subagentType)))
    requires Get(r, CurrentTool) == Some(JStr(if inp.event.PostToolUse? then "" else inp.tool))
    requires Get(r, PermissionMode) == Some(JStr(inp.permissionMode)) && inp.worktreePin.None?
    requires Get(r, Harness) == Some(JStr(DetectHarness(env, inp.gptModel)))
    requires StrOr(r, TmuxServerPid, "") == inp.serverPid
    requires !DelegatesPlan(inp) && !AsksQuestion(inp) && ValidFast(inp)
    ensures FastUpdate(env, inp, r) == None
  {
    hide FullUpdate;
    assert Truthy(Get(r, State)) && !InStopGuard(inp, r);
  }

  // ----- the lifecycle reporter -----

  /** A Stop never touches an agent whose merge is pinned. */
  predicate IsMerged(inp: ReportInput, r: Record) {
    inp.event.Stop? && Get(r, PinnedState) == Some(JStr("merged"))
  }

  /** The agent still works: its own tool is pending, or after this event other subagents are left. */
  predicate StillWorks(inp: ReportInput, r: Record) {
    || ((inp.event.Stop? || inp.event.SubagentStop?) && inp.hasPendingTool)
    || (inp.event.SubagentStop? && Count(r) > 1)
  }

  /** The guard drops the entry: nothing of a Stop or SubagentStop of an agent that still works lands over
      a stop state. */
  predicate Dropped(inp: ReportInput, r: Record) {
    InStopState(r) && StillWorks(inp, r)
  }

  lemma ReporterLeaves(env: Env, inp: ReportInput, r: Record, now: int, f: Field)
    requires NotAhead(r, now) && f !in {ReportSeq, UpdatedAt}
    ensures IsMerged(inp, r) || Dropped(inp, r) || !ReportChanged(env, inp, r) ==> Reporter(env, inp, r, now) == r
    ensures !IsMerged(inp, r) && !Dropped(inp, r) && ReportChanged(env, inp, r) ==>
              var e := ReportEntry(env, inp, r);
              Get(Reporter(env, inp, r, now), f)
              == (if f == State && InStopState(r) && inp.event.SubagentStop? then Get(r, State)
                  else if f in e then Some(e[f]) else Get(r, f))
  {
    hide ReportEntry, ReportChanged, Merge, Landed;
    var w := ReportRequest(env, inp, r, now * SEQ_SCALE);
    if w.None? {
      NothingLanded(r, now);
    } else {
      ReportEntryFields(env, inp, r);
      EntryLands(r, ReportEntry(env, inp, r), w.value.guard, w.value.preserve, now, f);
    }
  }

  lemma EntryLands(r: Record, u: Record, guard: bool, preserve: bool, now: int, f: Field)
    requires NotAhead(r, now) && f !in {ReportSeq, UpdatedAt} && State in u
    ensures var after := Landed(r, Some(NodeWrite(u[ReportSeq := JNum(now * SEQ_SCALE)], guard, preserve)), now);
            if guard && InStopState(r) && !preserve then after == r
            else Get(after, f) == (if guard && InStopState(r) && f == State then Get(r, State)
                                   else if f in u then Some(u[f]) else Get(r, f))
  {
  }

  /** The state on record after one run of the reporter. */
  lemma StateAfterReporter(env: Env, inp: ReportInput, r: Record, now: int)
    requires NotAhead(r, now)
    ensures var was, after := Get(r, State), Get(Reporter(env, inp, r, now), State);
            && (inp.event.SessionStart? || inp.event.SubagentStart? ==> after == Some(JStr("running")))
            && (inp.event.Stop? && Get(r, PinnedState) == Some(JStr("merged")) ==> after == was)
            && (inp.event.Stop? && Get(r, PinnedState) != Some(JStr("merged")) && !inp.hasPendingTool ==>
                  after == Some(JStr(inp.detected)))
            && (StillWorks(inp, r) && !IsMerged(inp, r) ==> after == if Truthy(was) then was else Some(JStr("running")))
            && (inp.event.SubagentStop? && !inp.hasPendingTool && Count(r) <= 1 ==>
                  after == if InStopState(r) then was else Some(JStr(inp.detected)))
  {
    hide Reporter, ReportEntry, ReportFiles;
    ReporterLeaves(env, inp, r, now, State);
    ReportEntryFields(env, inp, r);
  }

  /** The count after one run of the reporter: the end of a subagent goes uncounted exactly when its
      entry is dropped. */
  lemma CountAfterReporter(env: Env, inp: ReportInput, r: Record, now: int)
    requires NotAhead(r, now)
    ensures var was, after := Count(r), Count(Reporter(env, inp, r, now));
            && (inp.event.SubagentStart? ==> after == was + 1)
            && (inp.event.SubagentStop? ==>
                  after == if InStopState(r) && (inp.hasPendingTool || was > 1) then was
                           else if was > 0 then was - 1 else 0)
            && (!inp.event.SubagentStart? && !inp.event.SubagentStop? ==> after == was)
  {
    hide Reporter, ReportEntry, ReportFiles, ReportState;
    ReporterLeaves(env, inp, r, now, SubagentCount);
    ReportEntryFields(env, inp, r);
  }

  lemma EntryNames(env: Env, inp: ReportInput, snap: Record)
    ensures var e := ReportEntry(env, inp, snap);
            && Get(e, LastMessagePreview) == Some(inp.preview)
            && Get(e, PermissionMode) == Some(JStr(NewPermissionMode(inp, snap)))
            && Get(e, Harness) == Some(JStr(DetectHarness(env, inp.gptModel)))
            && Get(e, FilesChanged) == Some(JList(ReportFiles(inp, snap)))
            && Get(e, Cwd) == Some(JStr(StrOr(snap, Cwd, inp.cwd)))
            && Get(e, StartedAt) == Some(JStr(StrOr(snap, StartedAt, inp.nowText)))
            && Get(e, LastHookEvent) == Some(JStr(EventName(inp.event)))
            && Get(e, Model) == Some(JStr(if inp.event.SessionStart? && inp.model != "" then inp.model
                                          else StrOr(snap, Model, "")))
            && Get(e, Effort) == (var level := EntryEffort(env, inp.event, snap);
                                  if level != "" then Some(JStr(level)) else None)
  {
    hide StrOr, ReportFiles, ReportState, EntryEffort, NewPermissionMode;
  }

  lemma EntryPlace(env: Env, inp: ReportInput, snap: Record)
    ensures var e := ReportEntry(env, inp, snap);
            && Get(e, SessionId) == Some(JStr(inp.sessionId)) && Get(e, Target) == Some(JStr(inp.target))
            && Get(e, TmuxPaneId) == Some(JStr(inp.pane)) && Get(e, TmuxServerPid) == Some(JStr(inp.serverPid))
            && Get(e, TmuxSession) == Some(JStr(inp.tmuxSession)) && Get(e, TmuxWindow) == Some(JNum(inp.tmuxWindow))
            && Get(e, TmuxPane) == Some(JNum(inp.tmuxPane))
  {
    hide BaseEntry, ReportFiles, ReportState, EntryEffort, NewCount;
    BasePlace(env, inp, snap, ReportState(inp, snap), ReportFiles(inp, snap), NewCount(inp.event, snap));
  }

  lemma BasePlace(env: Env, inp: ReportInput, snap: Record, state: Json, files: seq<string>, subagents: int)
    ensures var e := BaseEntry(env, inp, snap, state, files, subagents);
            && Get(e, SessionId) == Some(JStr(inp.sessionId)) && Get(e, Target) == Some(JStr(inp.target))
            && Get(e, TmuxPaneId) == Some(JStr(inp.pane)) && Get(e, TmuxServerPid) == Some(JStr(inp.serverPid))
            && Get(e, TmuxSession) == Some(JStr(inp.tmuxSession)) && Get(e, TmuxWindow) == Some(JNum(inp.tmuxWindow))
            && Get(e, TmuxPane) == Some(JNum(inp.tmuxPane))
  {
    hide StrOr, NewPermissionMode, DetectHarness, EventName;
  }

  /** The reporter never touches a field of another writer. */
  lemma TouchedByReporter(env: Env, inp: ReportInput, r: Record, now: int, f: Field)
    requires NotAhead(r, now)
    requires f !in {Target, TmuxPaneId, TmuxServerPid, TmuxSession, TmuxWindow, TmuxPane, State, Cwd, FilesChanged,
                    LastMessagePreview, SessionId, StartedAt, Model, PermissionMode, SubagentCount, LastHookEvent,
                    Harness, Effort, ReportSeq, UpdatedAt}
    ensures Get(Reporter(env, inp, r, now), f) == Get(r, f)
  {
    hide Reporter, ReportChanged;
    ReporterLeaves(env, inp, r, now, f);
  }

  /** The record holds a non-empty text in this field. */
  predicate HasText(r: Record, f: Field) { f in r && r[f].JStr? && r[f].s != "" }

  /** Once set, the working directory and the start time never change; the model only changes at a
      session's start, and so does the effort level, as far as the reporter goes. */
  lemma FirstValuesStay(env: Env, inp: ReportInput, r: Record, now: int)
    requires NotAhead(r, now)
    ensures var after := Reporter(env, inp, r, now);
            && (HasText(r, Cwd) ==> Get(after, Cwd) == Get(r, Cwd))
            && (HasText(r, StartedAt) ==> Get(after, StartedAt) == Get(r, StartedAt))
            && (HasText(r, Model) && (!inp.event.SessionStart? || inp.model == "") ==>
                  Get(after, Model) == Get(r, Model))
            && (HasText(r, Effort) && !inp.event.SessionStart? ==> Get(after, Effort) == Get(r, Effort))
  {
    hide Reporter, ReportEntry, ReportChanged;
    EntryNames(env, inp, r);
    ReporterLeaves(env, inp, r, now, Cwd);
    ReporterLeaves(env, inp, r, now, StartedAt);
    ReporterLeaves(env, inp, r, now, Model);
    ReporterLeaves(env, inp, r, now, Effort);
  }

  /** After a run that is neither dropped nor held back, the record shows the message, mode and harness of
      the event, whether or not it had to be written. */
  lemma NamesAfterReporter(env: Env, inp: ReportInput, r: Record, now: int)
    requires NotAhead(r, now) && !IsMerged(inp, r) && !Dropped(inp, r)
    ensures var after := Reporter(env, inp, r, now);
            && Get(after, LastMessagePreview) == Some(inp.preview)
            && (inp.permissionMode != "" ==> Get(after, PermissionMode) == Some(JStr(inp.permissionMode)))
            && (inp.permissionMode == "" && HasText(r, PermissionMode) ==>
                  Get(after, PermissionMode) == Get(r, PermissionMode))
            && Get(after, Harness) == Some(JStr(if env.pluginRoot || inp.gptModel then "codex" else "claude"))
  {
    hide Reporter, ReportEntry;
    EntryNames(env, inp, r);
    ReporterLeaves(env, inp, r, now, LastMessagePreview);
    ReporterLeaves(env, inp, r, now, PermissionMode);
    ReporterLeaves(env, inp, r, now, Harness);
  }

  /** What a run that writes records besides. */
  lemma WrittenByReporter(env: Env, inp: ReportInput, r: Record, now: int)
    requires NotAhead(r, now) && !IsMerged(inp, r) && !Dropped(inp, r) && ReportChanged(env, inp, r)
    ensures var after := Reporter(env, inp, r, now);
            && (!HasText(r, Cwd) ==> Get(after, Cwd) == Some(JStr(inp.cwd)))
            && (!HasText(r, StartedAt) ==> Get(after, StartedAt) == Some(JStr(inp.nowText)))
            && (inp.event.Stop? ==> Get(after, LastHookEvent) == Some(JStr("Stop")))
            && (inp.event.SubagentStop? ==> Get(after, LastHookEvent) == Some(JStr("SubagentStop")))
            && (inp.event.SubagentStart? ==> Get(after, LastHookEvent) == Some(JStr("SubagentStart")))
            && (inp.event.SessionStart? ==> Get(after, LastHookEvent) == Some(JStr("SessionStart")))
  {
    hide Reporter, ReportEntry, ReportChanged, ReportFiles, NewPermissionMode, DetectHarness;
    EntryNames(env, inp, r);
    ReporterLeaves(env, inp, r, now, Cwd);
    ReporterLeaves(env, inp, r, now, StartedAt);
    ReporterLeaves(env, inp, r, now, LastHookEvent);
  }

  /** A new session's run records its model, and its level from the environment or else the settings. */
  lemma SessionByReporter(env: Env, inp: ReportInput, r: Record, now: int)
    requires NotAhead(r, now) && inp.event.SessionStart? && ReportChanged(env, inp, r)
    ensures var after := Reporter(env, inp, r, now);
            && (inp.model != "" ==> Get(after, Model) == Some(JStr(inp.model)))
            && (env.effortLevel != "" ==> Get(after, Effort) == Some(JStr(env.effortLevel)))
            && (env.effortLevel == "" && env.settingsEffort != "" ==>
                  Get(after, Effort) == Some(JStr(env.settingsEffort)))
  {
    hide Reporter, ReportEntry, ReportChanged, ReportFiles, NewPermissionMode, DetectHarness;
    EntryNames(env, inp, r);
    ReporterLeaves(env, inp, r, now, Model);
    ReporterLeaves(env, inp, r, now, Effort);
  }

  /** ... and where the agent is. */
  lemma PlacedByReporter(env: Env, inp: ReportInput, r: Record, now: int)
    requires NotAhead(r, now) && !IsMerged(inp, r) && !Dropped(inp, r) && ReportChanged(env, inp, r)
    ensures var after := Reporter(env, inp, r, now);
            && Get(after, SessionId) == Some(JStr(inp.sessionId)) && Get(after, Target) == Some(JStr(inp.target))
            && Get(after, TmuxPaneId) == Some(JStr(inp.pane)) && Get(after, TmuxServerPid) == Some(JStr(inp.serverPid))
            && Get(after, TmuxSession) == Some(JStr(inp.tmuxSession))
            && Get(after, TmuxWindow) == Some(JNum(inp.tmuxWindow)) && Get(after, TmuxPane) == Some(JNum(inp.tmuxPane))
  {
    hide Reporter, ReportEntry, ReportChanged;
    EntryPlace(env, inp, r);
    ReporterLeaves(env, inp, r, now, SessionId);
    ReporterLeaves(env, inp, r, now, Target);
    ReporterLeaves(env, inp, r, now, TmuxPaneId);
    ReporterLeaves(env, inp, r, now, TmuxServerPid);
    ReporterLeaves(env, inp, r, now, TmuxSession);
    ReporterLeaves(env, inp, r, now, TmuxWindow);
    ReporterLeaves(env, inp, r, now, TmuxPane);
  }

  /** The changed files are looked up again on every event of the agent itself and when its last subagent
      ends; the other subagent events keep a recorded list. */
  lemma FilesAfterReporter(env: Env, inp: ReportInput, r: Record, now: int)
    requires NotAhead(r, now) && !IsMerged(inp, r) && !Dropped(inp, r) && ReportChanged(env, inp, r)
    ensures var last := inp.event.SubagentStop? && !inp.hasPendingTool && Count(r) <= 1;
            var keeps := (inp.event.SubagentStart? || inp.event.SubagentStop?) && !last
                         && FilesChanged in r && r[FilesChanged].JList?;
            Get(Reporter(env, inp, r, now), FilesChanged)
            == Some(if keeps then r[FilesChanged] else JList(inp.changedFiles))
  {
    hide Reporter, ReportEntry, ReportChanged;
    EntryNames(env, inp, r);
    ReporterLeaves(env, inp, r, now, FilesChanged);
  }

  /** Whether or not it had to be written, the list on record afterwards reads as the one due. */
  lemma FilesShown(env: Env, inp: ReportInput, r: Record, now: int)
    requires NotAhead(r, now) && !IsMerged(inp, r) && !Dropped(inp, r)
    ensures var last := inp.event.SubagentStop? && !inp.hasPendingTool && Count(r) <= 1;
            var keeps := (inp.event.SubagentStart? || inp.event.SubagentStop?) && !last
                         && FilesChanged in r && r[FilesChanged].JList?;
            FilesText(Reporter(env, inp, r, now)) == Join(if keeps then r[FilesChanged].items else inp.changedFiles)
  {
    hide Reporter, ReportEntry, Join;
    EntryNames(env, inp, r);
    ReporterLeaves(env, inp, r, now, FilesChanged);
  }

  /** What a missing or odd value counts as. */
  lemma ValuesMean(r: Record, f: Field)
    ensures Truthy(Get(r, f)) <==> f in r && r[f] !in {JNull, JBool(false), JStr(""), JNum(0)}
    ensures StrOr(r, f, "") == if f in r && r[f].JStr? then r[f].s else ""
    ensures Count(r) == if SubagentCount in r && r[SubagentCount].JNum? then r[SubagentCount].n else 0
  {
  }

  /** The same clean Stop once more finds nothing to write. */
  lemma RepeatedStopWritesNothing(env: Env, inp: ReportInput, r: Record, now: int, later: int)
    requires NotAhead(r, now) && inp.event.Stop? && !inp.hasPendingTool && ValidReport(inp)
    ensures ReportRequest(env, inp, Reporter(env, inp, r, now), later) == None
  {
    hide Reporter, ReportEntry, ReportChanged;
    ReporterLeaves(env, inp, r, now, PinnedState);
    if !IsMerged(inp, r) {
      if ReportChanged(env, inp, r) { StopShows(env, inp, r, now); }
      NothingToReport(env, inp, Reporter(env, inp, r, now));
    }
  }

  /** What a clean Stop writes is what the next one compares. */
  lemma StopShows(env: Env, inp: ReportInput, r: Record, now: int)
    requires NotAhead(r, now) && inp.event.Stop? && !inp.hasPendingTool && ReportChanged(env, inp, r)
    requires !IsMerged(inp, r)
    ensures Agrees(env, inp, Reporter(env, inp, r, now))
  {
    hide Reporter, ReportEntry, ReportChanged, StrOr, FilesText, ReportFiles;
    StateAfterReporter(env, inp, r, now);
    EntryNames(env, inp, r);
    ReportEntryFields(env, inp, r);
    ReporterLeaves(env, inp, r, now, LastMessagePreview);
    ReporterLeaves(env, inp, r, now, PermissionMode);
    ReporterLeaves(env, inp, r, now, Harness);
    ReporterLeaves(env, inp, r, now, FilesChanged);
    ReporterLeaves(env, inp, r, now, SubagentCount);
    WrittenAgrees(env, inp, r, Reporter(env, inp, r, now));
  }

  /** The record shows what a clean Stop reports. */
  predicate Agrees(env: Env, inp: ReportInput, r: Record) {
    && Get(r, State) == Some(JStr(inp.detected)) && Get(r, SubagentCount) == Some(JNum(Count(r)))
    && Get(r, LastMessagePreview) == Some(inp.preview) && FilesText(r) == Join(inp.changedFiles)
    && Get(r, PermissionMode) == Some(JStr(NewPermissionMode(inp, r)))
    && StrOr(r, Harness, "") == DetectHarness(env, inp.gptModel)
  }

  lemma WrittenAgrees(env: Env, inp: ReportInput, was: Record, r: Record)
    requires inp.event.Stop? && Get(r, State) == Some(JStr(inp.detected))
    requires Get(r, SubagentCount) == Some(JNum(NewCount(inp.event, was)))
    requires Get(r, LastMessagePreview) == Some(inp.preview)
    requires Get(r, FilesChanged) == Some(JList(ReportFiles(inp, was)))
    requires Get(r, PermissionMode) == Some(JStr(NewPermissionMode(inp, was)))
    requires Get(r, Harness) == Some(JStr(DetectHarness(env, inp.gptModel)))
    ensures Agrees(env, inp, r)
  {
    hide Join;
  }

  lemma NothingToReport(env: Env, inp: ReportInput, r: Record)
    requires inp.event.Stop? && !inp.hasPendingTool && ValidReport(inp)
    requires Agrees(env, inp, r) || !ReportChanged(env, inp, r)
    ensures !ReportChanged(env, inp, r)
  {
    hide Join;
  }
}
