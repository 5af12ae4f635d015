/** What successive hook runs do to one record when nothing comes between them: the one-shot
    signals, the pending question, the delegated plan, the effort level and the subagent count. */
module HookSequences {
  import opened Options
  import opened AgentRecord
  import opened Hooks

  predicate NotAhead(r: Record, now: int) { SeqOf(r).Some? ==> SeqOf(r).value <= now * SEQ_SCALE }

  function Landed(r: Record, w: Option<Write>, now: int): Record {
    match w
    case None => r
    case Some(write) => Merge(Some(r), write, now).Or(r, (out: Record) => out)
  }

  /** One uninterrupted run of the fast hook, and one of the reporter. */
  function FastHook(env: Env, inp: FastInput, r: Record, now: int): Record {
    Landed(r, FastRequest(env, inp, r, now * SEQ_SCALE), now)
  }

  function Reporter(env: Env, inp: ReportInput, r: Record, now: int): Record {
    Landed(r, ReportRequest(env, inp, r, now * SEQ_SCALE), now)
  }

  /** A write stamped now is not dropped for its sequence, and lands unless the guard holds. */
  lemma FreshWriteLands(r: Record, u: Record, guard: bool, preserve: bool, now: int, f: Field)
    requires NotAhead(r, now) && !(guard && InStopState(r)) && f !in {ReportSeq, UpdatedAt}
    ensures var w := NodeWrite(u[ReportSeq := JNum(now * SEQ_SCALE)], guard, preserve);
            var after := Landed(r, Some(w), now);
            && Get(after, f) == (if f in u then Some(u[f]) else Get(r, f))
            && NotAhead(after, now)
  {
  }

  /** The fields of a full update that carry a signal. */
  lemma FullUpdateSignals(env: Env, inp: FastInput, existing: Record, sg: Signals)
    requires ValidFast(inp)
    ensures var u := FullUpdate(env, inp, existing, sg);
            && Get(u, State) == Some(JStr(sg.state))
            && Get(u, PermissionMode) == Some(JStr(KnownMode(inp, existing)))
            && Get(u, HookBlocked) == (if sg.consumeBlocked then Some(JStr("")) else None)
            && Get(u, Effort) == (if sg.newEffort != "" then Some(JStr(sg.newEffort)) else None)
            && Get(u, DelegatedPlanToolUseId)
               == (if sg.stampPlanId then Some(JStr(inp.toolUseId))
                   else if sg.clearPlanId then Some(JStr(""))
                   else None)
            && Get(u, PendingQuestion)
               == (if sg.stampQuestion && inp.questions.Some? then Some(JObj(inp.toolUseId, inp.questions.value))
                   else if sg.stampQuestion || sg.clearQuestion then Some(JNull)
                   else None)
  {
    hide BaseUpdate;
    var base := BaseUpdate(env, inp, existing, sg.state, sg.currentTool);
    BaseSignals(env, inp, existing, sg.state, sg.currentTool);
    PinnedKeeps(base, inp.worktreePin);
  }

  lemma BaseSignals(env: Env, inp: FastInput, existing: Record, state: string, currentTool: string)
    ensures var base := BaseUpdate(env, inp, existing, state, currentTool);
            && Get(base, State) == Some(JStr(state))
            && Get(base, PermissionMode) == Some(JStr(KnownMode(inp, existing)))
            && Get(base, HookBlocked) == None && Get(base, Effort) == None
            && Get(base, DelegatedPlanToolUseId) == None && Get(base, PendingQuestion) == None
  {
  }

  lemma PinnedKeeps(base: Record, pin: Option<Record>)
    requires pin.Some? ==> pin.value.Keys <= {WorktreeCwd, Branch}
    ensures var pinned := if pin.Some? then base + pin.value else base;
            forall f | f in {State, PermissionMode, HookBlocked, Effort, DelegatedPlanToolUseId, PendingQuestion} ::
              Get(pinned, f) == Get(base, f)
  {
  }

  /** The tools and events the sequences are about. */
  predicate Ordinary(inp: FastInput) {
    && ValidFast(inp) && inp.event.PreToolUse?
    && inp.tool !in {"ExitPlanMode", "AskUserQuestion", "request_user_input", "Agent"}
  }

  predicate AsksQuestion(inp: FastInput) {
    ValidFast(inp) && Asks(inp.event) && IsQuestionTool(inp.tool) && inp.questions.Some?
  }

  predicate DelegatesPlan(inp: FastInput) {
    ValidFast(inp) && inp.event.PreToolUse? && inp.tool == "Agent" && inp.subagentType == "Plan" && inp.toolUseId != ""
  }

  /** What one landed run with a change does, field by field. */
  lemma FastRunLands(env: Env, inp: FastInput, r: Record, now: int)
    requires NotAhead(r, now) && ValidFast(inp) && !(inp.event.PostToolUse? && (InStopState(r) || inp.tool == "Bash"))
    requires FastChanged(env, inp, r, SignalsOf(env, inp, r))
    ensures var after := FastHook(env, inp, r, now);
            var u := FullUpdate(env, inp, r, SignalsOf(env, inp, r));
            && NotAhead(after, now)
            && forall f | f in {State, PermissionMode, HookBlocked, Effort, DelegatedPlanToolUseId, PendingQuestion} ::
                 Get(after, f) == (if f in u then Some(u[f]) else Get(r, f))
  {
    hide FullUpdate, FastChanged, SignalsOf, Landed;
    var u := FullUpdate(env, inp, r, SignalsOf(env, inp, r));
    FullUpdateFields(env, inp, r, SignalsOf(env, inp, r));
    var guard := inp.event.PostToolUse? && Truthy(Get(u, State));
    assert FastUpdate(env, inp, r) == Some(u);
    forall f | f in {State, PermissionMode, HookBlocked, Effort, DelegatedPlanToolUseId, PendingQuestion}
      ensures Get(FastHook(env, inp, r, now), f) == (if f in u then Some(u[f]) else Get(r, f))
    {
      FreshWriteLands(r, u, guard, false, now, f);
    }
    FreshWriteLands(r, u, guard, false, now, State);
  }

  /** A question asked is pending and shown as such; once its tool is done it is cleared, while the
      state stays "question" until the next tool starts. */
  lemma AskedThenAnswered(env: Env, ask: FastInput, answer: FastInput, r: Record, t0: int, t1: int)
    requires NotAhead(r, t0) && t0 <= t1 && AsksQuestion(ask)
    requires ValidFast(answer) && answer.event.PostToolUse? && IsQuestionTool(answer.tool)
    ensures var asked := FastHook(env, ask, r, t0);
            var answered := FastHook(env, answer, asked, t1);
            && Get(asked, State) == Some(JStr("question"))
            && Get(asked, PendingQuestion) == Some(JObj(ask.toolUseId, ask.questions.value))
            && Get(answered, State) == Some(JStr("question"))
            && Get(answered, PendingQuestion) == Some(JNull)
  {
    hide FullUpdate, FastHook;
    var asked := FastHook(env, ask, r, t0);
    FastRunLands(env, ask, r, t0);
    FullUpdateSignals(env, ask, r, SignalsOf(env, ask, r));
    GuardedClears(env, answer, asked, t1);
  }

  lemma GuardedClears(env: Env, inp: FastInput, r: Record, now: int)
    requires NotAhead(r, now) && ValidFast(inp) && inp.event.PostToolUse? && IsQuestionTool(inp.tool)
    requires InStopState(r) && PendingQuestion in r && r[PendingQuestion] != JNull
    ensures var after := FastHook(env, inp, r, now);
            Get(after, State) == Get(r, State) && Get(after, PendingQuestion) == Some(JNull)
  {
    hide FullUpdate, FastChanged, Landed;
    var u := GuardedUpdate(SignalsOf(env, inp, r));
    assert PendingQuestion in u && u[PendingQuestion] == JNull && State !in u;
    FreshWriteLands(r, u, false, false, now, State);
    FreshWriteLands(r, u, false, false, now, PendingQuestion);
  }

  /** A block reported by another hook shows as "permission" for exactly one tool start. */
  lemma BlockedOnce(env: Env, first: FastInput, second: FastInput, r: Record, t0: int, t1: int)
    requires NotAhead(r, t0) && t0 <= t1 && Ordinary(first) && Ordinary(second) && Truthy(Get(r, HookBlocked))
    ensures var once := FastHook(env, first, r, t0);
            var twice := FastHook(env, second, once, t1);
            && Get(once, State) == Some(JStr("permission"))
            && !Truthy(Get(once, HookBlocked))
            && Get(twice, State) == Some(JStr("running"))
  {
    hide FullUpdate, FastHook;
    var once := FastHook(env, first, r, t0);
    FastRunLands(env, first, r, t0);
    FullUpdateSignals(env, first, r, SignalsOf(env, first, r));
    FastRunLands(env, second, once, t1);
    FullUpdateSignals(env, second, once, SignalsOf(env, second, once));
  }

  /** A delegated plan is marked with its tool-use id until the next tool of another kind starts. */
  lemma PlanDelegatedThenOver(env: Env, delegate: FastInput, next: FastInput, r: Record, t0: int, t1: int)
    requires NotAhead(r, t0) && t0 <= t1 && DelegatesPlan(delegate) && Ordinary(next)
    ensures var planning := FastHook(env, delegate, r, t0);
            var over := FastHook(env, next, planning, t1);
            && Get(planning, State) == Some(JStr("plan"))
            && Get(planning, DelegatedPlanToolUseId) == Some(JStr(delegate.toolUseId))
            && Get(over, State) != Some(JStr("plan"))
            && Get(over, DelegatedPlanToolUseId) == Some(JStr(""))
  {
    hide FullUpdate, FastHook;
    var planning := FastHook(env, delegate, r, t0);
    FastRunLands(env, delegate, r, t0);
    FullUpdateSignals(env, delegate, r, SignalsOf(env, delegate, r));
    FastRunLands(env, next, planning, t1);
    FullUpdateSignals(env, next, planning, SignalsOf(env, next, planning));
  }

  /** Entering plan mode sets the plan effort and leaving it the level the session started with,
      or else the default; between the two the level is left alone. */
  lemma EffortFollowsPlanMode(env: Env, enter: FastInput, leave: FastInput, r: Record, t0: int, t1: int)
    requires NotAhead(r, t0) && t0 <= t1 && !env.dynamicEffortOff && env.planEffort != "" && env.defaultEffort != ""
    requires ValidFast(enter) && enter.event.PreToolUse? && enter.permissionMode == "plan"
    requires ValidFast(leave) && leave.event.PreToolUse? && leave.permissionMode !in {"", "plan"}
    requires Get(r, PermissionMode) != Some(JStr("plan"))
    ensures var inPlan := FastHook(env, enter, r, t0);
            var back := FastHook(env, leave, inPlan, t1);
            && Get(inPlan, Effort) == Some(JStr(env.planEffort))
            && EffortTransition(env, Get(inPlan, PermissionMode), "plan") == ""
            && Get(back, Effort) == Some(JStr(if env.effortLevel != "" then env.effortLevel else env.defaultEffort))
            && EffortTransition(env, Get(back, PermissionMode), leave.permissionMode) == ""
  {
    hide FullUpdate, FastHook;
    var inPlan := FastHook(env, enter, r, t0);
    FastRunLands(env, enter, r, t0);
    FullUpdateSignals(env, enter, r, SignalsOf(env, enter, r));
    FastRunLands(env, leave, inPlan, t1);
    FullUpdateSignals(env, leave, inPlan, SignalsOf(env, leave, inPlan));
  }

  /** A subagent that starts and stops leaves the count as it was. */
  lemma StartStopKeepsCount(env: Env, start: ReportInput, stop: ReportInput, r: Record, t0: int, t1: int)
    requires NotAhead(r, t0) && t0 <= t1 && Count(r) >= 0
    requires start.event.SubagentStart? && stop.event.SubagentStop?
    ensures var started := Reporter(env, start, r, t0);
            var stopped := Reporter(env, stop, started, t1);
            && Count(started) == Count(r) + 1 && Get(started, State) == Some(JStr("running"))
            && Count(stopped) == Count(r)
  {
    hide Landed, Merge, ReportEntry;
    var started := Reporter(env, start, r, t0);
    ReportEntryFields(env, start, r);
    FreshWriteLands(r, ReportEntry(env, start, r), false, false, t0, SubagentCount);
    FreshWriteLands(r, ReportEntry(env, start, r), false, false, t0, State);
    ReportEntryFields(env, stop, started);
    var stopped, last := ReportEntry(env, stop, started), FinalSubagentStop(stop, started);
    FreshWriteLands(started, stopped, true, last, t1, SubagentCount);
  }
}
