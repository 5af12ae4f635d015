/** The critical sections that run under the sidecar lock, in the form the writers have: the
    file is re-read, the record is changed field by field, and the file is replaced. */
module AgentStore {
  import opened Options
  import opened AgentRecord
  import opened StateProtocol

  /** What the file holds after a writer that was given `w` is done with it. */
  function Replaced(c: Option<Content>, w: Write, now: int): Option<Content> {
    match Merge(Read(c), w, now)
    case None => c
    case Some(out) => Some(Full(out))
  }

  class AgentFile {
    var content: Option<Content>

    constructor (initial: Option<Content>)
      ensures content == initial
    {
      content := initial;
    }

    /** A missing or unreadable file reads as nothing. */
    method ReadAgentState() returns (r: Option<Record>)
      ensures r == Read(content)
    {
      if content.Some? && content.value.Full? {
        r := Some(content.value.rec);
      } else {
        r := None;
      }
    }

    /** The hooks' critical section. */
    method WriteState(update: Record, guardStates: bool, preserveGuardedState: bool, now: int)
      modifies this
      ensures content == Replaced(old(content), NodeWrite(update, guardStates, preserveGuardedState), now)
      ensures (&& guardStates && !preserveGuardedState
               && Read(old(content)).Some? && InStopState(Read(old(content)).value)) ==>
                content == old(content)
    {
      var read := ReadAgentState();
      var existing: Record := map[];
      if read.Some? { existing := read.value; }
      var guardHit := guardStates && InStopState(existing);
      var preserve := guardHit && preserveGuardedState;
      var staleReportSeq := false;
      if ReportSeq in update && update[ReportSeq].JNum? && ReportSeq in existing && existing[ReportSeq].JNum? {
        staleReportSeq := existing[ReportSeq].n <= now * SEQ_SCALE + FUTURE_SLACK
          && update[ReportSeq].n < existing[ReportSeq].n;
      }
      if staleReportSeq && !preserve { return; }
      if guardHit && !preserveGuardedState { return; }
      var merged := existing + update;
      if preserve { merged := merged[State := existing[State]]; }
      if staleReportSeq { merged := merged[ReportSeq := existing[ReportSeq]]; }
      content := Some(Full(merged[UpdatedAt := JNum(now)]));
    }

    /** The dashboard's critical section: it fails on a missing file and otherwise sets one
        field after the other. */
    method StampFields(updates: Record) returns (ok: bool)
      modifies this
      ensures content == Replaced(old(content), GoWrite(updates), 0)
      ensures ok <==> Read(old(content)).Some?
      ensures !ok ==> content == old(content)
    {
      var read := ReadAgentState();
      if read.None? { return false; }
      var raw := read.value;
      var todo := updates.Keys;
      while todo != {}
        invariant todo <= updates.Keys
        invariant raw.Keys == read.value.Keys + (updates.Keys - todo)
        invariant forall f <- raw :: raw[f] == if f in updates && f !in todo then updates[f] else read.value[f]
        decreases todo
      {
        var f :| f in todo;
        raw := raw[f := updates[f]];
        todo := todo - {f};
      }
      assert raw == read.value + updates;
      content := Some(Full(raw));
      ok := true;
    }

    method PinAgentState(pinned: string) returns (ok: bool)
      modifies this
      ensures content == Replaced(old(content), GoWrite(map[PinnedState := JStr(pinned)]), 0)
      ensures ok <==> Read(old(content)).Some?
      ensures !ok ==> content == old(content)
    {
      var read := ReadAgentState();
      if read.None? { return false; }
      content := Some(Full(read.value[PinnedState := JStr(pinned)]));
      assert read.value[PinnedState := JStr(pinned)] == read.value + map[PinnedState := JStr(pinned)];
      ok := true;
    }
  }
}
