/** The per-agent JSON record and the decision one writer makes about it inside its
    critical section: the sequence check, the stop-state guard and the merge. */
module AgentRecord {
  import opened Options

  /** A JSON value as far as the writers look at one.  A number beyond the double range
      parses to an infinity, hence JInf; the report sequence is always an integer. */
  datatype Json =
    | JNull
    | JBool(b: bool)
    | JStr(s: string)
    | JNum(n: int)
    | JInf
    | JList(items: seq<string>)
    | JObj(key: string, val: seq<string>)

  /** The fields some writer names; every other key of the file is Other(key). */
  datatype Field =
    | State | ReportSeq | UpdatedAt | PinnedState
    | Target | TmuxPaneId | TmuxServerPid | SessionId
    | CurrentTool | PermissionMode | LastHookEvent | Harness
    | Effort | HookBlocked | PendingQuestion | DelegatedPlanToolUseId
    | WorktreeCwd | Branch
    | TmuxSession | TmuxWindow | TmuxPane | Cwd | FilesChanged
    | LastMessagePreview | StartedAt | Model | SubagentCount
    | Other(key: string)

  type Record = map<Field, Json>

  function Get(r: Record, f: Field): Option<Json> {
    if f in r then Some(r[f]) else None
  }

  /** JavaScript truthiness; an absent field is undefined. */
  predicate Truthy(v: Option<Json>) {
    match v
    case None => false
    case Some(JNull) => false
    case Some(JBool(b)) => b
    case Some(JStr(s)) => s != ""
    case Some(JNum(n)) => n != 0
    case Some(_) => true
  }

  /** `r.f || ''` for a field that holds a string. */
  function StrOr(r: Record, f: Field, default: string): string {
    match Get(r, f)
    case Some(JStr(s)) => if s != "" then s else default
    case _ => default
  }

  /** The states a late write must not overwrite. */
  predicate IsStop(v: Option<Json>) {
    v in {Some(JStr("idle_prompt")), Some(JStr("done")), Some(JStr("question")), Some(JStr("plan"))}
  }

  predicate InStopState(r: Record) { IsStop(Get(r, State)) }

  /** The finite report sequence of a record, if it has one. */
  function SeqOf(r: Record): Option<int> {
    match Get(r, ReportSeq)
    case Some(JNum(n)) => Some(n)
    case _ => None
  }

  /** Sequences are milliseconds scaled by 1000; a stored one more than 60 s ahead of the
      clock is implausible and ignored for ordering. */
  const SEQ_SCALE := 1000
  const FUTURE_SLACK := 60_000 * 1000

  /** One requested write.  `guard` is whether the stop-state guard set is passed, and
      `preserve` whether a guarded state is kept while the other fields land. */
  datatype Write =
    | NodeWrite(update: Record, guard: bool, preserve: bool)
    | GoWrite(update: Record)

  predicate Stale(existing: Record, update: Record, now: int) {
    match (SeqOf(update), SeqOf(existing))
    case (Some(u), Some(e)) => e <= now * SEQ_SCALE + FUTURE_SLACK && u < e
    case _ => false
  }

  predicate GuardHit(existing: Record, w: Write)
    requires w.NodeWrite?
  {
    w.guard && InStopState(existing)
  }

  /** What a writer leaves on disk, given the record it re-read under the lock: None when
      it leaves the file alone.  The dashboard's writers need an existing file; the hooks
      start from the empty record. */
  function Merge(existing: Option<Record>, w: Write, now: int): Option<Record> {
    match w
    case GoWrite(update) =>
      if existing.None? then None else Some(existing.value + update)
    case NodeWrite(update, guard, preserve) =>
      var e := existing.Or(map[], (r: Record) => r);
      var keep := GuardHit(e, w) && preserve;
      var stale := Stale(e, update, now);
      if (stale || GuardHit(e, w)) && !keep then None
      else
        var spread := e + update;
        var kept := if keep then spread[State := e[State]] else spread;
        var sequenced := if stale then kept[ReportSeq := e[ReportSeq]] else kept;
        Some(sequenced[UpdatedAt := JNum(now)])
  }

  // ----- what one merge guarantees -----

  /** Fields nobody mentions survive, and mentioned ones land, save for the state and the
      sequence that the guard and the ordering rule own. */
  lemma MergeFrame(existing: Option<Record>, w: Write, now: int, f: Field)
    requires Merge(existing, w, now).Some?
    requires f != UpdatedAt
    ensures var out := Merge(existing, w, now).value;
            && (f !in w.update ==> Get(out, f) == existing.Or(None, (r: Record) => Get(r, f)))
            && (f in w.update && (w.GoWrite? || f !in {State, ReportSeq}) ==> Get(out, f) == Some(w.update[f]))
            && (w.NodeWrite? ==> Get(out, UpdatedAt) == Some(JNum(now)))
  {
  }

  /** A hook's write is refused in two cases, unless it is to preserve a stop state and meets one: the
      guard meets a stop state, or its sequence is older than a stored one at most a minute ahead of the
      clock. */
  lemma RefusedExactly(existing: Option<Record>, w: Write, now: int)
    requires w.NodeWrite?
    ensures var r: Record := existing.Or(map[], (e: Record) => e);
            var meets := && w.guard && State in r && r[State].JStr?
                         && r[State].s in {"idle_prompt", "done", "question", "plan"};
            var late := && SeqOf(w.update).Some? && SeqOf(r).Some?
                        && SeqOf(w.update).value < SeqOf(r).value <= (now + 60_000) * 1000;
            Merge(existing, w, now).None? <==> (meets || late) && !(meets && w.preserve)
  {
  }

  /** A merge that lands leaves the old state where the guard meets a stop state, and the old sequence
      where the write's is late. */
  lemma LandedKeeps(existing: Record, w: Write, now: int)
    requires w.NodeWrite? && Merge(Some(existing), w, now).Some?
    ensures var out := Merge(Some(existing), w, now).value;
            && (State in w.update ==>
                  Get(out, State) == Get(if w.guard && InStopState(existing) then existing else w.update, State))
            && (SeqOf(w.update).Some? ==>
                  SeqOf(out) == SeqOf(if Stale(existing, w.update, now) then existing else w.update))
  {
  }

  /** A guarded write never moves a stop state, and neither does one without a state. */
  lemma GuardedMergeKeepsStopState(existing: Record, w: Write, now: int)
    requires w.NodeWrite? && (w.guard || State !in w.update)
    requires InStopState(existing)
    requires Merge(Some(existing), w, now).Some?
    ensures Get(Merge(Some(existing), w, now).value, State) == Get(existing, State)
  {
  }

  /** The write of the last SubagentStop is never dropped against a stop state: the state
      and the larger sequence stay, everything else in the update lands. */
  lemma PreservingMergeLands(existing: Record, w: Write, now: int, f: Field)
    requires w.NodeWrite? && w.guard && w.preserve
    requires InStopState(existing)
    ensures Merge(Some(existing), w, now).Some?
    ensures var out := Merge(Some(existing), w, now).value;
            && Get(out, State) == Get(existing, State)
            && (f in w.update && f !in {State, ReportSeq, UpdatedAt} ==> Get(out, f) == Some(w.update[f]))
  {
  }

  /** Provided the stored sequence is not ahead of the clock, no merge lowers it, and the
      merged record's sequence is at least the writer's own. */
  lemma MergeNeverLowersSeq(existing: Option<Record>, w: Write, now: int)
    requires existing.Some? && SeqOf(existing.value).Some? ==> SeqOf(existing.value).value <= now * SEQ_SCALE
    requires ReportSeq in w.update ==> w.NodeWrite? && SeqOf(w.update).Some?
    requires Merge(existing, w, now).Some?
    ensures var out := Merge(existing, w, now).value;
            && (existing.Some? && SeqOf(existing.value).Some? ==>
                  SeqOf(out).Some? && SeqOf(existing.value).value <= SeqOf(out).value)
            && (SeqOf(w.update).Some? ==> SeqOf(out).Some? && SeqOf(w.update).value <= SeqOf(out).value)
            && (SeqOf(out).Some? ==>
                  || SeqOf(out) == SeqOf(w.update)
                  || (existing.Some? && SeqOf(out) == SeqOf(existing.value)))
  {
  }

  /** An unguarded write is dropped exactly when its sequence is older than a plausible
      stored one; when it lands, its state and its sequence are what the file then holds. */
  lemma UnguardedMerge(existing: Option<Record>, w: Write, now: int)
    requires w.NodeWrite? && !w.guard
    ensures Merge(existing, w, now).None? <==> existing.Some? && Stale(existing.value, w.update, now)
    ensures Merge(existing, w, now).Some? ==>
              var out := Merge(existing, w, now).value;
              && (State in w.update ==> Get(out, State) == Get(w.update, State))
              && (SeqOf(w.update).Some? ==> SeqOf(out) == SeqOf(w.update))
  {
  }
}
