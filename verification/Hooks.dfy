/** What the hook processes decide to write, computed from an earlier, unlocked read of the
    record: the fast hook (PreToolUse, PostToolUse, PermissionRequest) and the lifecycle
    reporter (SessionStart, SubagentStart, SubagentStop, Stop). */
module Hooks {
  import opened Options
  import opened AgentRecord

  datatype HookEvent =
    | PreToolUse | PostToolUse | PermissionRequest
    | SessionStart | SubagentStart | SubagentStop | Stop
    | OtherEvent(name: string)

  function EventName(e: HookEvent): string {
    match e
    case PreToolUse => "PreToolUse"
    case PostToolUse => "PostToolUse"
    case PermissionRequest => "PermissionRequest"
    case SessionStart => "SessionStart"
    case SubagentStart => "SubagentStart"
    case SubagentStop => "SubagentStop"
    case Stop => "Stop"
    case OtherEvent(name) => name
  }

  /** Environment variables and settings the hooks consult. */
  datatype Env = Env(pluginRoot: bool, dynamicEffortOff: bool, effortLevel: string,
                     planEffort: string, defaultEffort: string, settingsEffort: string)

  // ----- fast hook -----

  /** Parsed stdin of the fast hook, with the pane's coordinates and the worktree pin that
      the reconciliation helper would return. */
  datatype FastInput = FastInput(
    event: HookEvent, tool: string, permissionMode: string, subagentType: string,
    questions: Option<seq<string>>, toolUseId: string, sessionId: string, gptModel: bool,
    prCommand: bool, target: string, pane: string, serverPid: string,
    worktreePin: Option<Record>)

  predicate ValidFast(inp: FastInput) {
    inp.worktreePin.Some? ==> inp.worktreePin.value.Keys <= {WorktreeCwd, Branch}
  }

  function DetectHarness(env: Env, gptModel: bool): string {
    if env.pluginRoot || gptModel then "codex" else "claude"
  }

  predicate Asks(e: HookEvent) { e.PermissionRequest? || e.PreToolUse? }

  predicate IsQuestionTool(tool: string) { tool == "AskUserQuestion" || tool == "request_user_input" }

  function ResolveState(e: HookEvent, tool: string, subagentType: string): string {
    if Asks(e) && tool == "ExitPlanMode" then "plan"
    else if Asks(e) && IsQuestionTool(tool) then "question"
    else if e.PermissionRequest? then "permission"
    else if e.PreToolUse? && tool == "Agent" && subagentType == "Plan" then "plan"
    else "running"
  }

  /** The effort level a permission-mode change calls for, or "" when none does. */
  function EffortTransition(env: Env, existingMode: Option<Json>, newMode: string): string {
    if env.dynamicEffortOff || newMode == "" then ""
    else if existingMode != Some(JStr("plan")) && newMode == "plan" then env.planEffort
    else if existingMode == Some(JStr("plan")) && newMode != "plan" then
      (if env.effortLevel != "" then env.effortLevel else env.defaultEffort)
    else ""
  }

  /** The signals the fast hook derives before it decides anything. */
  datatype Signals = Signals(state: string, newEffort: string, consumeBlocked: bool,
                             stampQuestion: bool, clearQuestion: bool,
                             stampPlanId: bool, clearPlanId: bool, currentTool: string)

  function SignalsOf(env: Env, inp: FastInput, existing: Record): Signals {
    var resolved := ResolveState(inp.event, inp.tool, inp.subagentType);
    var consume := Truthy(Get(existing, HookBlocked)) && inp.event.PreToolUse?;
    var state := if consume && resolved == "running" then "permission" else resolved;
    var stampQ := Asks(inp.event) && IsQuestionTool(inp.tool) && inp.questions.Some?;
    var hasQ := PendingQuestion in existing && existing[PendingQuestion] != JNull;
    Signals(
      state,
      EffortTransition(env, Get(existing, PermissionMode), inp.permissionMode),
      consume,
      stampQ,
      !stampQ && hasQ && ((inp.event.PostToolUse? && IsQuestionTool(inp.tool))
                          || (inp.event.PreToolUse? && !IsQuestionTool(inp.tool))),
      state == "plan" && inp.event.PreToolUse? && inp.tool == "Agent" && inp.subagentType == "Plan"
      && inp.toolUseId != "",
      state != "plan" && Truthy(Get(existing, DelegatedPlanToolUseId)),
      if inp.event.PostToolUse? then "" else inp.tool)
  }

  /** `r` with `f` set when the condition holds. */
  function Put(r: Record, c: bool, f: Field, v: Json): Record { if c then r[f := v] else r }

  predicate InStopGuard(inp: FastInput, existing: Record) {
    inp.event.PostToolUse? && InStopState(existing)
  }

  /** The partial update that is allowed past a stop state. */
  function GuardedUpdate(sg: Signals): Record {
    var blocked := Put(map[], sg.consumeBlocked, HookBlocked, JStr(""));
    var effort := Put(blocked, sg.newEffort != "", Effort, JStr(sg.newEffort));
    Put(effort, sg.clearQuestion, PendingQuestion, JNull)
  }

  predicate FastChanged(env: Env, inp: FastInput, existing: Record, sg: Signals) {
    || Get(existing, State) != Some(JStr(sg.state))
    || Get(existing, CurrentTool) != Some(JStr(sg.currentTool))
    || Get(existing, PermissionMode) != Some(JStr(inp.permissionMode))
    || inp.worktreePin.Some?
    || sg.consumeBlocked || sg.stampPlanId || sg.clearPlanId
    || sg.stampQuestion || sg.clearQuestion || sg.newEffort != ""
    || StrOr(existing, Harness, "") != DetectHarness(env, inp.gptModel)
    || StrOr(existing, TmuxServerPid, "") != inp.serverPid
  }

  /** The fields every full update of the fast hook carries. */
  function KnownMode(inp: FastInput, existing: Record): string {
    if inp.permissionMode != "" then inp.permissionMode else StrOr(existing, PermissionMode, "")
  }

  function BaseUpdate(env: Env, inp: FastInput, existing: Record, state: string, currentTool: string): Record {
    map[
      Target := JStr(inp.target),
      TmuxPaneId := JStr(inp.pane),
      TmuxServerPid := JStr(inp.serverPid),
      SessionId := JStr(inp.sessionId),
      State := JStr(state),
      CurrentTool := JStr(currentTool),
      PermissionMode := JStr(KnownMode(inp, existing)),
      LastHookEvent := JStr(EventName(inp.event)),
      Harness := JStr(DetectHarness(env, inp.gptModel))
    ]
  }

  function FullUpdate(env: Env, inp: FastInput, existing: Record, sg: Signals): Record {
    var base := BaseUpdate(env, inp, existing, sg.state, sg.currentTool);
    var pinned := if inp.worktreePin.Some? then base + inp.worktreePin.value else base;
    var plan := Put(pinned, sg.stampPlanId || sg.clearPlanId, DelegatedPlanToolUseId,
                    JStr(if sg.stampPlanId then inp.toolUseId else ""));
    var question := Put(plan, sg.stampQuestion || sg.clearQuestion, PendingQuestion,
                        if sg.stampQuestion && inp.questions.Some? then JObj(inp.toolUseId, inp.questions.value)
                        else JNull);
    var blocked := Put(question, sg.consumeBlocked, HookBlocked, JStr(""));
    Put(blocked, sg.newEffort != "", Effort, JStr(sg.newEffort))
  }

  /** The fields the fast hook wants to merge, or None when nothing changed. */
  function FastUpdate(env: Env, inp: FastInput, existing: Record): Option<Record> {
    var sg := SignalsOf(env, inp, existing);
    if InStopGuard(inp, existing) then
      (if GuardedUpdate(sg) == map[] then None else Some(GuardedUpdate(sg)))
    else if !FastChanged(env, inp, existing, sg) && Truthy(Get(existing, State)) then None
    else Some(FullUpdate(env, inp, existing, sg))
  }

  /** The hook's form of FastUpdate: the update is filled in field by field. */
  method BuildUpdate(env: Env, inp: FastInput, existing: Record)
    returns (changed: bool, update: Record, dispatchEffort: bool)
    ensures changed <==> FastUpdate(env, inp, existing).Some?
    ensures changed ==> update == FastUpdate(env, inp, existing).value
    ensures var level := EffortTransition(env, Get(existing, PermissionMode), inp.permissionMode);
            && (dispatchEffort <==> level != "" && level != StrOr(existing, Effort, "") && !InStopState(existing))
            && (dispatchEffort ==> changed && Effort in update && update[Effort] == JStr(level))
  {
    hide FullUpdate;
    var sg := SignalsOf(env, inp, existing);
    dispatchEffort := sg.newEffort != "" && sg.newEffort != StrOr(existing, Effort, "") && !InStopState(existing);
    update := map[];
    if InStopGuard(inp, existing) {
      if sg.consumeBlocked { update := update[HookBlocked := JStr("")]; }
      if sg.newEffort != "" { update := update[Effort := JStr(sg.newEffort)]; }
      if sg.clearQuestion { update := update[PendingQuestion := JNull]; }
      return update != map[], update, dispatchEffort && update != map[];
    }
    if !FastChanged(env, inp, existing, sg) && Truthy(Get(existing, State)) {
      return false, map[], false;
    }
    update := FillUpdate(env, inp, existing, sg);
    changed := true;
    hide SignalsOf, FastChanged;
    FullUpdateEffort(env, inp, existing, sg);
  }

  lemma FullUpdateEffort(env: Env, inp: FastInput, existing: Record, sg: Signals)
    ensures sg.newEffort != "" ==>
              var u := FullUpdate(env, inp, existing, sg); Effort in u && u[Effort] == JStr(sg.newEffort)
  {
  }

  method FillUpdate(env: Env, inp: FastInput, existing: Record, sg: Signals) returns (update: Record)
    requires sg.clearQuestion ==> !sg.stampQuestion
    requires sg.stampQuestion ==> inp.questions.Some?
    ensures update == FullUpdate(env, inp, existing, sg)
  {
    hide BaseUpdate;
    update := BaseUpdate(env, inp, existing, sg.state, sg.currentTool);
    if inp.worktreePin.Some? { update := update + inp.worktreePin.value; }
    if sg.stampPlanId {
      update := update[DelegatedPlanToolUseId := JStr(inp.toolUseId)];
    } else if sg.clearPlanId {
      update := update[DelegatedPlanToolUseId := JStr("")];
    }
    if sg.stampQuestion && inp.questions.Some? {
      update := update[PendingQuestion := JObj(inp.toolUseId, inp.questions.value)];
    } else if sg.clearQuestion {
      update := update[PendingQuestion := JNull];
    }
    if sg.consumeBlocked { update := update[HookBlocked := JStr("")]; }
    if sg.newEffort != "" { update := update[Effort := JStr(sg.newEffort)]; }
  }

  /** The write request of one fast-hook run that read `snap` and was stamped `seqNo` at entry. */
  function FastRequest(env: Env, inp: FastInput, snap: Record, seqNo: int): Option<Write> {
    if inp.event.PostToolUse? && inp.tool == "Bash" && inp.prCommand then None
    else match FastUpdate(env, inp, snap)
      case None => None
      case Some(u) =>
        Some(NodeWrite(u[ReportSeq := JNum(seqNo)], inp.event.PostToolUse? && Truthy(Get(u, State)), false))
  }

  predicate ForeignFree(u: Record) {
    PinnedState !in u && ReportSeq !in u && UpdatedAt !in u && SubagentCount !in u
  }

  lemma BaseUpdateFields(env: Env, inp: FastInput, existing: Record, state: string, currentTool: string)
    ensures var u := BaseUpdate(env, inp, existing, state, currentTool);
            ForeignFree(u) && State in u && u[State] == JStr(state)
  {
  }

  lemma FullUpdateFields(env: Env, inp: FastInput, existing: Record, sg: Signals)
    requires ValidFast(inp)
    ensures var u := FullUpdate(env, inp, existing, sg);
            ForeignFree(u) && State in u && u[State] == JStr(sg.state)
  {
    hide BaseUpdate;
    BaseUpdateFields(env, inp, existing, sg.state, sg.currentTool);
    var base := BaseUpdate(env, inp, existing, sg.state, sg.currentTool);
    var pinned := if inp.worktreePin.Some? then base + inp.worktreePin.value else base;
    assert ForeignFree(pinned) && State in pinned && pinned[State] == JStr(sg.state);
  }

  /** The fast hook never writes a pin, a count or a sequence of its own, and past a stop
      state it sends no state at all. */
  lemma FastUpdateFields(env: Env, inp: FastInput, existing: Record)
    requires ValidFast(inp) && FastUpdate(env, inp, existing).Some?
    ensures var u := FastUpdate(env, inp, existing).value;
            && ForeignFree(u)
            && (State in u <==> !InStopGuard(inp, existing))
            && (State in u ==> u[State] == JStr(SignalsOf(env, inp, existing).state))
  {
    hide FullUpdate, FastChanged, SignalsOf;
    FullUpdateFields(env, inp, existing, SignalsOf(env, inp, existing));
  }

  // ----- lifecycle reporter -----

  /** Parsed stdin of the reporter, with what it would learn from the transcript
      (hasPendingTool), the pane buffer (detected) and git (changedFiles). */
  datatype ReportInput = ReportInput(
    event: HookEvent, hasPendingTool: bool, detected: string, changedFiles: seq<string>,
    preview: Json, model: string, permissionMode: string, sessionId: string, gptModel: bool,
    target: string, pane: string, serverPid: string,
    tmuxSession: string, tmuxWindow: int, tmuxPane: int, cwd: string, nowText: string)

  /** The heuristic detector is any function into these. */
  predicate ValidReport(inp: ReportInput) {
    inp.detected in {"question", "idle_prompt", "done"}
  }

  function Count(r: Record): int {
    match Get(r, SubagentCount)
    case Some(JNum(n)) => n
    case _ => 0
  }

  function Max0(n: int): int { if n < 0 then 0 else n }

  /** The count this event's entry stores. */
  function NewCount(e: HookEvent, existing: Record): int {
    match e
    case SubagentStart => Count(existing) + 1
    case SubagentStop => Max0(Count(existing) - 1)
    case _ => Count(existing)
  }

  predicate FinalSubagentStop(inp: ReportInput, snap: Record) {
    inp.event.SubagentStop? && !inp.hasPendingTool && NewCount(SubagentStop, snap) == 0
  }

  function OrRunning(v: Option<Json>): Json {
    if Truthy(v) then v.value else JStr("running")
  }

  /** The state a Stop or SubagentStop resolves to. */
  function ResolveStopState(e: HookEvent, existing: Record, hasPendingTool: bool, subagents: int, detected: string)
    : Json
  {
    if hasPendingTool then OrRunning(Get(existing, State))
    else if e.SubagentStop? && subagents > 0 then OrRunning(Get(existing, State))
    else JStr(detected)
  }

  function ReportState(inp: ReportInput, snap: Record): Json {
    if inp.event.SessionStart? || inp.event.SubagentStart? then JStr("running")
    else ResolveStopState(inp.event, snap, inp.hasPendingTool,
                          if inp.event.SubagentStop? then NewCount(SubagentStop, snap) else Count(snap), inp.detected)
  }

  /** Subagent events reuse the recorded file list unless this is the last SubagentStop. */
  function ChangedFiles(inp: ReportInput, snap: Record, refresh: bool): seq<string> {
    if (inp.event.SubagentStart? || inp.event.SubagentStop?) && !refresh
       && FilesChanged in snap && snap[FilesChanged].JList?
    then snap[FilesChanged].items
    else inp.changedFiles
  }

  function Join(xs: seq<string>): string {
    if xs == [] then "" else if |xs| == 1 then xs[0] else xs[0] + "," + Join(xs[1..])
  }

  function FilesText(r: Record): string {
    match Get(r, FilesChanged)
    case Some(JList(items)) => Join(items)
    case _ => ""
  }

  function EntryEffort(env: Env, e: HookEvent, existing: Record): string {
    var prior := StrOr(existing, Effort, "");
    if e.SessionStart? then
      (if env.effortLevel != "" then env.effortLevel
       else if env.settingsEffort != "" then env.settingsEffort
       else prior)
    else prior
  }

  /** The entry without the optional effort field. */
  function BaseEntry(env: Env, inp: ReportInput, snap: Record, state: Json, files: seq<string>, subagents: int)
    : Record
  {
    map[
      Target := JStr(inp.target),
      TmuxPaneId := JStr(inp.pane),
      TmuxServerPid := JStr(inp.serverPid),
      TmuxSession := JStr(inp.tmuxSession),
      TmuxWindow := JNum(inp.tmuxWindow),
      TmuxPane := JNum(inp.tmuxPane),
      State := state,
      Cwd := JStr(StrOr(snap, Cwd, inp.cwd)),
      FilesChanged := JList(files),
      LastMessagePreview := inp.preview,
      SessionId := JStr(inp.sessionId),
      StartedAt := JStr(StrOr(snap, StartedAt, inp.nowText)),
      Model := JStr(if inp.event.SessionStart? && inp.model != "" then inp.model else StrOr(snap, Model, "")),
      PermissionMode := JStr(NewPermissionMode(inp, snap)),
      SubagentCount := JNum(subagents),
      LastHookEvent := JStr(EventName(inp.event)),
      Harness := JStr(DetectHarness(env, inp.gptModel))
    ]
  }

  function NewPermissionMode(inp: ReportInput, snap: Record): string {
    if inp.permissionMode != "" then inp.permissionMode else StrOr(snap, PermissionMode, "")
  }

  function ReportFiles(inp: ReportInput, snap: Record): seq<string> {
    ChangedFiles(inp, snap, FinalSubagentStop(inp, snap))
  }

  function ReportEntry(env: Env, inp: ReportInput, snap: Record): Record {
    var effort := EntryEffort(env, inp.event, snap);
    Put(BaseEntry(env, inp, snap, ReportState(inp, snap), ReportFiles(inp, snap), NewCount(inp.event, snap)),
        effort != "", Effort, JStr(effort))
  }

  /** Whether the entry differs from the record in a field the reporter compares. */
  predicate ReportChanged(env: Env, inp: ReportInput, snap: Record) {
    || Get(snap, State) != Some(ReportState(inp, snap))
    || Get(snap, SubagentCount) != Some(JNum(NewCount(inp.event, snap)))
    || Get(snap, LastMessagePreview) != Some(inp.preview)
    || Get(snap, PermissionMode) != Some(JStr(NewPermissionMode(inp, snap)))
    || FilesText(snap) != Join(ReportFiles(inp, snap))
    || StrOr(snap, Harness, "") != DetectHarness(env, inp.gptModel)
    || !Truthy(Get(snap, State))
  }

  predicate ShouldGuardWrite(e: HookEvent, hasPendingTool: bool) {
    e.SubagentStop? || (e.Stop? && hasPendingTool)
  }

  /** The write request of one reporter run. */
  function ReportRequest(env: Env, inp: ReportInput, snap: Record, seqNo: int): Option<Write> {
    if inp.event.Stop? && Get(snap, PinnedState) == Some(JStr("merged")) then None
    else if !ReportChanged(env, inp, snap) then None
    else
      // Outside Stop and SubagentStop the pending-tool flag is never consulted.
      var pending := inp.hasPendingTool && !inp.event.SessionStart? && !inp.event.SubagentStart?;
      var guard := ShouldGuardWrite(inp.event, pending);
      Some(NodeWrite(ReportEntry(env, inp, snap)[ReportSeq := JNum(seqNo)],
                     guard, guard && FinalSubagentStop(inp, snap)))
  }

  /** The reporter's form of ReportEntry: the running count and the entry are updated in steps. */
  method BuildReportEntry(env: Env, inp: ReportInput, existing: Record, state: Json, files: seq<string>)
    returns (changed: bool, entry: Record)
    requires state == ReportState(inp, existing)
    requires files == ReportFiles(inp, existing)
    ensures entry == ReportEntry(env, inp, existing)
    ensures changed <==> ReportChanged(env, inp, existing)
  {
    var subagentCount := Count(existing);
    if inp.event.SubagentStart? {
      subagentCount := subagentCount + 1;
    } else if inp.event.SubagentStop? {
      subagentCount := Max0(subagentCount - 1);
    }
    entry := BaseEntry(env, inp, existing, state, files, subagentCount);
    var effort := EntryEffort(env, inp.event, existing);
    if effort != "" {
      entry := entry[Effort := JStr(effort)];
    }
    changed := Get(existing, State) != Some(state)
      || Get(existing, SubagentCount) != Some(JNum(subagentCount))
      || Get(existing, LastMessagePreview) != Some(inp.preview)
      || Get(existing, PermissionMode) != Some(JStr(NewPermissionMode(inp, existing)))
      || FilesText(existing) != Join(files)
      || StrOr(existing, Harness, "") != DetectHarness(env, inp.gptModel)
      || !Truthy(Get(existing, State));
  }

  lemma ReportEntryFields(env: Env, inp: ReportInput, snap: Record)
    ensures var e := ReportEntry(env, inp, snap);
            PinnedState !in e && ReportSeq !in e && UpdatedAt !in e
            && State in e && e[State] == ReportState(inp, snap)
            && SubagentCount in e && e[SubagentCount] == JNum(NewCount(inp.event, snap))
  {
    hide BaseEntry, ReportState, ReportFiles;
    BaseEntryFields(env, inp, snap, ReportState(inp, snap), ReportFiles(inp, snap), NewCount(inp.event, snap));
  }

  lemma BaseEntryFields(env: Env, inp: ReportInput, snap: Record, state: Json, files: seq<string>, subagents: int)
    ensures var e := BaseEntry(env, inp, snap, state, files, subagents);
            PinnedState !in e && ReportSeq !in e && UpdatedAt !in e
            && State in e && e[State] == state && SubagentCount in e && e[SubagentCount] == JNum(subagents)
  {
  }
}
