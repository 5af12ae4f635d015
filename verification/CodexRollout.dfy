/** Codex rollout files: the incremental conversation reader and the two scans for a pending
    plan or question. */
module CodexRollout {
  import opened Options
  import opened Lines
  import opened Seqs
  import opened Conversation
  import opened BlockingTools

  /** The fields of a decoded rollout line that any reader looks at. */
  datatype Line = Line(kind: string, payload: string, message: string, itemKind: string,
                       name: string, role: string, callID: string, args: string, timestamp: string)

  // ----- the conversation -----

  /** The conversation entry of one line, if it has one. */
  function Emit(l: Line): seq<Entry> {
    if l.kind != "event_msg" then []
    else if l.payload == "item_completed" && l.itemKind == "Plan" then [Entry(PlanSaved, "", l.timestamp, false)]
    else if l.payload == "user_message" && l.message != "" then [Entry(Human, l.message, l.timestamp, false)]
    else if l.payload == "agent_message" && l.message != "" then [Entry(Assistant, l.message, l.timestamp, false)]
    else []
  }

  function EmitAll(ls: seq<Line>): seq<Entry> {
    if ls == [] then [] else EmitAll(ls[..|ls| - 1]) + Emit(ls[|ls| - 1])
  }

  lemma {:induction false} EmitAppend(a: seq<Line>, b: seq<Line>)
    ensures EmitAll(a + b) == EmitAll(a) + EmitAll(b)
  {
    hide Emit;
    if b == [] {
      assert a + b == a;
    } else {
      assert (a + b)[..|a + b| - 1] == a + b[..|b| - 1];
      EmitAppend(a, b[..|b| - 1]);
      Regroup(EmitAll(a), EmitAll(b[..|b| - 1]), Emit(b[|b| - 1]));
    }
  }

  /** What a line adds to those around it. */
  lemma LineShows(a: seq<Line>, l: Line, b: seq<Line>)
    ensures var head, tail := EmitAll(a), EmitAll(b);
            var shown := EmitAll((a + [l]) + b);
            && (l.kind == "event_msg" && l.payload == "user_message" && l.message != "" ==>
                  shown == (head + [Entry(Human, l.message, l.timestamp, false)]) + tail)
            && (l.kind == "event_msg" && l.payload == "agent_message" && l.message != "" ==>
                  shown == (head + [Entry(Assistant, l.message, l.timestamp, false)]) + tail)
            && (l.kind == "event_msg" && l.payload == "item_completed" && l.itemKind == "Plan" ==>
                  shown == (head + [Entry(PlanSaved, "", l.timestamp, false)]) + tail)
            && (l.kind != "event_msg" || l.payload !in {"user_message", "agent_message", "item_completed"} ==>
                  shown == head + tail)
            && (l.payload == "item_completed" && l.itemKind != "Plan" ==> shown == head + tail)
            && (l.payload in {"user_message", "agent_message"} && l.message == "" ==> shown == head + tail)
  {
    hide EmitAll;
    EmitAppend(a + [l], b);
    EmitAppend(a, [l]);
    EmitSingle(l);
    assert EmitAll(a) + [] == EmitAll(a);
  }

  lemma EmitSingle(l: Line)
    ensures EmitAll([l]) == Emit(l)
  {
    assert [l][..0] == [];
  }

  function KeepLast(es: seq<Entry>, limit: int): seq<Entry> {
    if limit > 0 && |es| > limit then es[|es| - limit..] else es
  }

  /** Dropping early is harmless: what was dropped before would be dropped again. */
  lemma KeepLastAbsorbs(a: seq<Entry>, b: seq<Entry>, limit: int)
    ensures KeepLast(KeepLast(a, limit) + b, limit) == KeepLast(a + b, limit)
  {
  }

  /** The entries, or None for Go's nil slice, and the offset to resume from: the size at the stat. */
  function ReadIncremental(v: Reading, limit: int, prev: Option<seq<Entry>>, prevOffset: int,
                           decode: Bytes -> Option<Line>)
    : (Option<seq<Entry>>, nat)
  {
    var restart := prevOffset > |v.at| || prevOffset < 0;
    var offset := if restart then 0 else prevOffset;
    var known := if restart then None else prev;
    if offset > 0 && offset == |v.at| && known.Some? then (known, offset)
    else
      var resumed := offset > 0 && known.Some?;
      var out := (if resumed then known.value else []) + EmitAll(Entries(From(v.All(), offset), decode));
      (if out == [] && !resumed then None else Some(KeepLast(out, limit)), |v.at|)
  }

  function Shown(r: Option<seq<Entry>>): seq<Entry> { r.Or([], (es: seq<Entry>) => es) }

  /** The full reader is the incremental one without a past. */
  function Read(v: Reading, limit: int, decode: Bytes -> Option<Line>): seq<Entry> {
    Shown(ReadIncremental(v, limit, None, 0, decode).0)
  }

  function Chain(vs: seq<Reading>, limit: int, decode: Bytes -> Option<Line>): (Option<seq<Entry>>, nat) {
    if vs == [] then (None, 0)
    else
      var (prev, offset) := Chain(vs[..|vs| - 1], limit, decode);
      ReadIncremental(vs[|vs| - 1], limit, prev, offset, decode)
  }

  predicate LateHarmless(u: Reading, limit: int, decode: Bytes -> Option<Line>) {
    Recurs(EmitAll(Entries(u.All(), decode)), EmitAll(Entries(u.late, decode)), limit)
  }

  /** The rollout shrank, was left alone, or grew by whole lines, those appended while it was being
      read doing no harm when they are read again. */
  predicate Evolves(u: Reading, v: Reading, limit: int, decode: Bytes -> Option<Line>) {
    || |v.at| < |u.at|
    || (v == u && u.late == [])
    || (Grown(u, v) && LateHarmless(u, limit, decode))
  }

  /** The window of a doubled ending is the window before exactly when the doubling is harmless. */
  lemma DoubledWindow(x: seq<Entry>, l: seq<Entry>, limit: int)
    ensures KeepLast(x + l, limit) == KeepLast(x, limit) <==> Recurs(x, l, limit)
  {
    if l == [] {
      assert x + l == x;
    } else {
      hide Repeats;
      if 0 < limit <= |x| { ShiftedWindow(x, l, limit); } else { WindowSize(x, l, limit); }
    }
  }

  lemma WindowSize(x: seq<Entry>, l: seq<Entry>, limit: int)
    requires !(0 < limit <= |x|) && l != []
    ensures |KeepLast(x + l, limit)| > |KeepLast(x, limit)|
  {
  }

  lemma ShiftedWindow(x: seq<Entry>, l: seq<Entry>, limit: int)
    requires 0 < limit <= |x|
    ensures KeepLast(x + l, limit) == KeepLast(x, limit) <==> Repeats(x + l, |x| - limit, |l|)
  {
    hide Repeats;
    var s, d := x + l, |x| - limit;
    RepeatsIsShift(s, d, |l|);
    assert s[d..|s| - |l|] == x[d..];
    KeepLastIs(x, limit);
    KeepLastIs(s, limit);
  }

  lemma KeepLastIs(es: seq<Entry>, limit: int)
    requires 0 < limit <= |es|
    ensures KeepLast(es, limit) == es[|es| - limit..]
  {
  }

  /** A window that the doubled entries fill by themselves never shows them twice. */
  lemma SmallWindowRecurs(a: seq<Entry>, l: seq<Entry>, limit: int)
    requires 0 < limit <= |l|
    ensures Recurs(a + l, l, limit)
  {
  }

  predicate Distinct(es: seq<Entry>) { forall i, j | 0 <= i < j < |es| :: es[i] != es[j] }

  /** Among entries that are all different, nothing else is harmless. */
  lemma DistinctRecurs(a: seq<Entry>, l: seq<Entry>, limit: int)
    requires Distinct(a + l)
    ensures Recurs(a + l, l, limit) <==> l == [] || 0 < limit <= |l|
  {
    if 0 < limit <= |l| { SmallWindowRecurs(a, l, limit); }
    if l != [] && |l| < limit <= |a + l| { WindowMoves(a + l, l, limit); }
  }

  lemma WindowMoves(x: seq<Entry>, l: seq<Entry>, limit: int)
    requires Distinct(x) && l != [] && |l| < limit <= |x|
    ensures !Repeats(x + l, |x| - limit, |l|)
  {
    var i := |x| - limit;
    assert (x + l)[i] == x[i] && (x + l)[i + |l|] == x[i + |l|];
    assert x[i] != x[i + |l|];
  }

  /** A full read shows the last entries of the rollout, or all of them without a limit. */
  lemma ReadTells(v: Reading, limit: int, decode: Bytes -> Option<Line>)
    ensures var es := EmitAll(Entries(v.All(), decode));
            Read(v, limit, decode) == if 0 < limit < |es| then es[|es| - limit..] else es
  {
    ReadKeepsLast(v, limit, decode);
  }

  lemma ReadKeepsLast(v: Reading, limit: int, decode: Bytes -> Option<Line>)
    ensures Read(v, limit, decode) == KeepLast(EmitAll(Entries(v.All(), decode)), limit)
  {
    assert From(v.All(), 0) == v.All();
    assert [] + EmitAll(Entries(v.All(), decode)) == EmitAll(Entries(v.All(), decode));
  }

  /** The entries of a grown rollout: those before the stat of the last reading, those appended
      during it, which the next one reads again, and the new ones. */
  lemma GrownParts(u: Reading, v: Reading, decode: Bytes -> Option<Line>)
    requires Grown(u, v)
    ensures var a, l := EmitAll(Entries(u.at, decode)), EmitAll(Entries(u.late, decode));
            |u.All()| <= |v.All()| &&
            var r := EmitAll(Entries(v.All()[|u.All()|..], decode));
            && EmitAll(Entries(u.All(), decode)) == a + l
            && EmitAll(Entries(v.All(), decode)) == (a + l) + r
            && EmitAll(Entries(From(v.All(), |u.at|), decode)) == l + r
  {
    hide Entries, Emit, EmitAll, Grown;
    GrownEntries(u, v, decode);
    var a, l, r := Entries(u.at, decode), Entries(u.late, decode), Entries(v.All()[|u.All()|..], decode);
    EmitAppend(a, l);
    EmitAppend(a + l, r);
    EmitAppend(l, r);
  }

  /** What a reading of a grown rollout shows, in terms of what was shown before. */
  lemma GrownRead(u: Reading, v: Reading, limit: int, prev: Option<seq<Entry>>, decode: Bytes -> Option<Line>)
    requires u.at != [] && |u.at| < |v.at|
    ensures Shown(ReadIncremental(v, limit, prev, |u.at|, decode).0)
         == KeepLast(Shown(prev) + EmitAll(Entries(From(v.All(), |u.at|), decode)), limit)
  {
    hide Entries, EmitAll, From;
  }

  /** What a full reading, and one that resumes, show of a grown rollout. */
  lemma GrownShows(u: Reading, v: Reading, limit: int, prev: Option<seq<Entry>>, decode: Bytes -> Option<Line>)
    requires u.at != [] && Grown(u, v) && Shown(prev) == Read(u, limit, decode)
    ensures |u.All()| <= |v.All()|
    ensures var x, l := EmitAll(Entries(u.All(), decode)), EmitAll(Entries(u.late, decode));
            var r := EmitAll(Entries(v.All()[|u.All()|..], decode));
            && Shown(ReadIncremental(v, limit, prev, |u.at|, decode).0) == KeepLast(KeepLast(x + l, limit) + r, limit)
            && Read(v, limit, decode) == KeepLast(KeepLast(x, limit) + r, limit)
  {
    hide Entries, EmitAll, KeepLast, Read, ReadIncremental, Grown;
    GrownIsLonger(u, v);
    var x, l := EmitAll(Entries(u.All(), decode)), EmitAll(Entries(u.late, decode));
    var r := EmitAll(Entries(v.All()[|u.All()|..], decode));
    GrownParts(u, v, decode);
    GrownRead(u, v, limit, prev, decode);
    ReadKeepsLast(u, limit, decode);
    ReadKeepsLast(v, limit, decode);
    KeepLastAbsorbs(x, l + r, limit);
    Regroup(x, l, r);
    KeepLastAbsorbs(x + l, r, limit);
    KeepLastAbsorbs(x, r, limit);
  }

  lemma GrownAgrees(u: Reading, v: Reading, limit: int, prev: Option<seq<Entry>>, decode: Bytes -> Option<Line>)
    requires u.at != [] && Grown(u, v) && LateHarmless(u, limit, decode) && Shown(prev) == Read(u, limit, decode)
    ensures Shown(ReadIncremental(v, limit, prev, |u.at|, decode).0) == Read(v, limit, decode)
  {
    hide Entries, EmitAll, KeepLast, Read, ReadIncremental, Grown, Recurs;
    GrownShows(u, v, limit, prev, decode);
    DoubledWindow(EmitAll(Entries(u.All(), decode)), EmitAll(Entries(u.late, decode)), limit);
  }

  lemma RestartedRead(v: Reading, offset: nat, limit: int, prev: Option<seq<Entry>>, decode: Bytes -> Option<Line>)
    requires offset > |v.at| || offset == 0
    ensures Shown(ReadIncremental(v, limit, prev, offset, decode).0) == Read(v, limit, decode)
  {
  }

  lemma UnchangedRead(v: Reading, limit: int, prev: Option<seq<Entry>>, decode: Bytes -> Option<Line>)
    requires v.at != [] && v.late == []
    ensures Shown(ReadIncremental(v, limit, prev, |v.at|, decode).0) == Shown(prev)
  {
    assert From(v.All(), |v.at|) == [];
  }

  lemma ReadStep(u: Reading, v: Reading, limit: int, prev: Option<seq<Entry>>, decode: Bytes -> Option<Line>)
    requires Evolves(u, v, limit, decode) && Shown(prev) == Read(u, limit, decode)
    ensures Shown(ReadIncremental(v, limit, prev, |u.at|, decode).0) == Read(v, limit, decode)
  {
    hide ReadIncremental, Read, LateHarmless, Grown;
    if |v.at| < |u.at| || u.at == [] {
      RestartedRead(v, |u.at|, limit, prev, decode);
    } else if v == u && u.late == [] {
      UnchangedRead(v, limit, prev, decode);
    } else {
      GrownAgrees(u, v, limit, prev, decode);
    }
  }

  /** Any chain of incremental reads over whole-line appends, shrinks and re-polls, at a fixed limit,
      ends with the entries of one full read. */
  lemma {:induction false} ChainAgrees(vs: seq<Reading>, limit: int, decode: Bytes -> Option<Line>)
    requires vs != [] && forall i | 0 < i < |vs| :: Evolves(vs[i - 1], vs[i], limit, decode)
    ensures Shown(Chain(vs, limit, decode).0) == Read(vs[|vs| - 1], limit, decode)
    ensures Chain(vs, limit, decode).1 == |vs[|vs| - 1].at|
  {
    hide ReadIncremental, Evolves, Read;
    var n := |vs| - 1;
    OffsetIsSize(vs, limit, decode);
    if n > 0 {
      ChainAgrees(vs[..n], limit, decode);
      assert Evolves(vs[n - 1], vs[n], limit, decode);
      ReadStep(vs[n - 1], vs[n], limit, Chain(vs[..n], limit, decode).0, decode);
    } else {
      assert vs[..0] == [];
      RestartedRead(vs[0], 0, limit, None, decode);
    }
  }

  lemma OffsetIsSize(vs: seq<Reading>, limit: int, decode: Bytes -> Option<Line>)
    requires vs != []
    ensures Chain(vs, limit, decode).1 == |vs[|vs| - 1].at|
  {
    hide Entries, EmitAll, From, KeepLast;
  }

  /** The next reading shows what a full one does. */
  predicate NextAgrees(u: Reading, v: Reading, limit: int, decode: Bytes -> Option<Line>) {
    var (prev, offset) := Chain([u], limit, decode);
    Shown(ReadIncremental(v, limit, prev, offset, decode).0) == Read(v, limit, decode)
  }

  /** Lines appended during a reading are read again by the next one. At every limit, the two agree
      with a full read however the rollout goes on exactly when those lines do no harm. */
  lemma LateLinesExact(u: Reading, limit: int, decode: Bytes -> Option<Line>)
    requires u.at != [] && Aligned(u.at) && Aligned(u.All())
    ensures (forall v | Grown(u, v) :: NextAgrees(u, v, limit, decode)) <==> LateHarmless(u, limit, decode)
  {
    hide Entries, EmitAll, Read, ReadIncremental, KeepLast, Recurs;
    var prev := Chain([u], limit, decode).0;
    assert Chain([u], limit, decode).1 == |u.at| && Shown(prev) == Read(u, limit, decode) by {
      ChainAgrees([u], limit, decode);
    }
    if LateHarmless(u, limit, decode) {
      forall v | Grown(u, v) ensures NextAgrees(u, v, limit, decode) { GrownAgrees(u, v, limit, prev, decode); }
    }
    if forall v | Grown(u, v) :: NextAgrees(u, v, limit, decode) {
      var x, l := EmitAll(Entries(u.All(), decode)), EmitAll(Entries(u.late, decode));
      if u.late == [] {
        NothingLate(x, limit, decode);
      } else {
        var v := Reading(u.All(), []);
        assert v.All() == u.All() && v.All()[|u.All()|..] == [];
        assert Grown(u, v) && NextAgrees(u, v, limit, decode);
        GrownShows(u, v, limit, prev, decode);
        NothingLate(x, limit, decode);
        KeepLastAbsorbs(x + l, [], limit);
        KeepLastAbsorbs(x, [], limit);
        assert KeepLast(x + l, limit) + [] == KeepLast(x + l, limit) && KeepLast(x, limit) + [] == KeepLast(x, limit);
        assert (x + l) + [] == x + l && x + [] == x;
        DoubledWindow(x, l, limit);
      }
    }
  }

  lemma NothingLate(x: seq<Entry>, limit: int, decode: Bytes -> Option<Line>)
    ensures EmitAll(Entries([], decode)) == [] && Recurs(x, [], limit)
  {
  }

  /** The reading loop. */
  method ReadIncrementally(v: Reading, limit: int, prev: Option<seq<Entry>>, prevOffset: int,
                           decode: Bytes -> Option<Line>)
    returns (entries: Option<seq<Entry>>, offset: nat)
    ensures (entries, offset) == ReadIncremental(v, limit, prev, prevOffset, decode)
  {
    hide Emit, EmitAll, LinesOf, From, Decode;
    var known, from := prev, prevOffset;
    var fileSize := |v.at|;
    if from > fileSize || from < 0 {
      from := 0;
      known := None;
    }
    if from > 0 && from == fileSize && known.Some? { return known, from; }
    var out: seq<Entry> := [];
    if from > 0 && known.Some? { out := known.value; }
    ghost var start := out;
    var raw := LinesOf(From(v.All(), from));
    var i := 0;
    NothingRead(start, raw, decode);
    while i < |raw|
      invariant i <= |raw|
      invariant out == start + EmitAll(Decode(raw[..i], decode))
    {
      DecodeOneMore(raw, i, decode);
      ghost var ls := Decode(raw[..i], decode);
      assert ls + [] == ls;
      i := i + 1;
      if raw[i - 1] == [] { continue; }
      var l := decode(raw[i - 1]);
      if l.None? { continue; }
      out := AppendLine(out, l.value);
      EmitOne(ls, l.value, start);
    }
    assert raw[..i] == raw;
    if out == [] && !(from > 0 && known.Some?) { return None, fileSize; }
    if limit > 0 && |out| > limit { out := out[|out| - limit..]; }
    entries, offset := Some(out), fileSize;
  }

  lemma NothingRead(start: seq<Entry>, raw: seq<Bytes>, decode: Bytes -> Option<Line>)
    ensures start + EmitAll(Decode(raw[..0], decode)) == start
  {
    assert raw[..0] == [];
  }

  lemma EmitOne(ls: seq<Line>, l: Line, start: seq<Entry>)
    ensures start + EmitAll(ls + [l]) == start + EmitAll(ls) + Emit(l)
  {
    assert (ls + [l])[..|ls|] == ls;
    Regroup(start, EmitAll(ls), Emit(l));
  }

  method AppendLine(out0: seq<Entry>, l: Line) returns (out: seq<Entry>)
    ensures out == out0 + Emit(l)
  {
    out := out0;
    if l.kind != "event_msg" { return; }
    if l.payload == "item_completed" && l.itemKind == "Plan" {
      out := out + [Entry(PlanSaved, "", l.timestamp, false)];
      return;
    }
    var role;
    if l.payload == "user_message" { role := Human; }
    else if l.payload == "agent_message" { role := Assistant; }
    else { return; }
    if l.message == "" { return; }
    out := out + [Entry(role, l.message, l.timestamp, false)];
  }

  // ----- pending plans and questions -----

  /** What a line means to the pending scans. */
  datatype Signal = PlanMade | Asked(callID: string, args: string) | Answered(callID: string) | UserTurn | Nothing

  function SignalOf(l: Line): Signal {
    if l.kind == "event_msg" then
      (if l.payload == "item_completed" && l.itemKind == "Plan" then PlanMade else Nothing)
    else if l.kind == "response_item" then
      (if l.payload == "function_call" then
         (if l.name == "request_user_input" then Asked(l.callID, l.args) else Nothing)
       else if l.payload == "function_call_output" then Answered(l.callID)
       else if l.payload == "message" && l.role == "user" then UserTurn
       else Nothing)
    else Nothing
  }

  datatype Scan = Scan(lastTool: Tool, humanAfter: bool, questionID: string, answered: bool)

  const Fresh := Scan(NoTool, false, "", false)

  function ScanOne(s: Scan, g: Signal): Scan {
    match g
    case PlanMade => Scan(Plan, false, "", false)
    case Asked(id, _) => Scan(Question, false, id, false)
    case Answered(id) => if s.lastTool.Question? && id == s.questionID then s.(answered := true) else s
    case UserTurn => if !s.lastTool.NoTool? then s.(humanAfter := true) else s
    case Nothing => s
  }

  function ScanAll(gs: seq<Signal>): Scan {
    if gs == [] then Fresh else ScanOne(ScanAll(gs[..|gs| - 1]), gs[|gs| - 1])
  }

  function VerdictOf(s: Scan): Tool {
    if s.lastTool.Question? && s.answered then NoTool
    else if !s.lastTool.NoTool? && !s.humanAfter then s.lastTool
    else NoTool
  }

  predicate Blocking(g: Signal) { g.PlanMade? || g.Asked? }

  /** Index of the last blocking signal, or -1. */
  function LastBlocking(gs: seq<Signal>): (k: int)
    ensures -1 <= k < |gs|
    ensures k >= 0 ==> Blocking(gs[k])
    ensures forall j | k < j < |gs| :: !Blocking(gs[j])
  {
    if gs == [] then -1
    else if Blocking(gs[|gs| - 1]) then |gs| - 1
    else LastBlocking(gs[..|gs| - 1])
  }

  predicate UserTurnAfter(gs: seq<Signal>, k: int) { exists j | k < j < |gs| && 0 <= j :: gs[j].UserTurn? }

  predicate AnsweredAfter(gs: seq<Signal>, k: int, id: string) {
    exists j | k < j < |gs| && 0 <= j :: gs[j] == Answered(id)
  }

  /** The verdict as it is meant: the last blocking signal, unless the user spoke later or the
      question was answered later. */
  predicate Declared(gs: seq<Signal>, t: Tool) {
    var k := LastBlocking(gs);
    t == if k < 0 || UserTurnAfter(gs, k) then NoTool
         else if gs[k].PlanMade? then Plan
         else if AnsweredAfter(gs, k, gs[k].callID) then NoTool
         else Question
  }

  /** What the streaming state records about the last blocking signal. */
  ghost predicate Records(s: Scan, gs: seq<Signal>) {
    var k := LastBlocking(gs);
    && (s.lastTool.NoTool? <==> k < 0)
    && (k < 0 ==> s == Fresh)
    && (k >= 0 ==>
          && s.lastTool == (if gs[k].PlanMade? then Plan else Question)
          && (s.humanAfter <==> UserTurnAfter(gs, k))
          && (gs[k].Asked? ==> s.questionID == gs[k].callID && (s.answered <==> AnsweredAfter(gs, k, gs[k].callID)))
          && (gs[k].PlanMade? ==> !s.answered))
  }

  lemma {:induction false} StreamingRecords(gs: seq<Signal>)
    ensures Records(ScanAll(gs), gs)
  {
    if gs != [] {
      var n := |gs| - 1;
      var init := gs[..n];
      StreamingRecords(init);
      if !Blocking(gs[n]) {
        var k := LastBlocking(init);
        assert UserTurnAfter(gs, k) <==> UserTurnAfter(init, k) || gs[n].UserTurn?;
        if k >= 0 && gs[k].Asked? {
          var id := gs[k].callID;
          assert AnsweredAfter(gs, k, id) <==> AnsweredAfter(init, k, id) || gs[n] == Answered(id);
        }
      }
    }
  }

  /** The one-pass scan decides exactly the declared verdict. */
  lemma VerdictIsDeclared(gs: seq<Signal>)
    ensures Declared(gs, VerdictOf(ScanAll(gs)))
  {
    StreamingRecords(gs);
  }

  /** What the scans look for, in terms of the lines. */
  predicate IsPlanLine(l: Line) { l.kind == "event_msg" && l.payload == "item_completed" && l.itemKind == "Plan" }

  predicate IsQuestionLine(l: Line) {
    l.kind == "response_item" && l.payload == "function_call" && l.name == "request_user_input"
  }

  predicate IsUserLine(l: Line) { l.kind == "response_item" && l.payload == "message" && l.role == "user" }

  predicate IsOutputOf(l: Line, callID: string) {
    l.kind == "response_item" && l.payload == "function_call_output" && l.callID == callID
  }

  /** Line k blocks: the last plan or question line, with no user line behind it, nor, for a question, an
      output of its call. */
  predicate BlocksAt(ls: seq<Line>, k: int) {
    && 0 <= k < |ls| && (IsPlanLine(ls[k]) || IsQuestionLine(ls[k]))
    && (forall j | k < j < |ls| :: !IsPlanLine(ls[j]) && !IsQuestionLine(ls[j]) && !IsUserLine(ls[j]))
    && (IsQuestionLine(ls[k]) ==> forall j | k < j < |ls| :: !IsOutputOf(ls[j], ls[k].callID))
  }

  lemma SignalMeans(l: Line, callID: string)
    ensures SignalOf(l).PlanMade? <==> IsPlanLine(l)
    ensures SignalOf(l).Asked? <==> IsQuestionLine(l)
    ensures SignalOf(l).Asked? ==> SignalOf(l) == Asked(l.callID, l.args)
    ensures SignalOf(l).UserTurn? <==> IsUserLine(l)
    ensures SignalOf(l) == Answered(callID) <==> IsOutputOf(l, callID)
  {
  }

  /** The verdict in terms of the lines: it is "plan" exactly when a plan line blocks, and "question"
      exactly when a question line does. */
  lemma VerdictByLines(ls: seq<Line>)
    ensures var t := VerdictOf(ScanAll(Signals(ls)));
            && (t.Plan? <==> exists k :: BlocksAt(ls, k) && IsPlanLine(ls[k]))
            && (t.Question? <==> exists k :: BlocksAt(ls, k) && IsQuestionLine(ls[k]))
  {
    hide ScanAll, VerdictOf, SignalOf, IsPlanLine, IsQuestionLine, IsUserLine, IsOutputOf;
    var gs := Signals(ls);
    VerdictIsDeclared(gs);
    forall i, id | 0 <= i < |ls| ensures LineSignal(ls[i], gs[i], id) { SignalMeans(ls[i], id); }
    var k := LastBlocking(gs);
    if k >= 0 {
      DeclaredAt(ls, gs, k);
      assert LineSignal(ls[k], gs[k], "");
    }
    var t := VerdictOf(ScanAll(gs));
    assert (t.Plan? <==> k >= 0 && BlocksAt(ls, k) && IsPlanLine(ls[k]))
        && (t.Question? <==> k >= 0 && BlocksAt(ls, k) && IsQuestionLine(ls[k])) by { DeclaredCases(gs, t); }
    forall j | BlocksAt(ls, j) ensures j == k { BlocksLast(ls, gs, k, j); }
  }

  lemma DeclaredCases(gs: seq<Signal>, t: Tool)
    requires Declared(gs, t)
    ensures var k := LastBlocking(gs);
            && (t.Plan? <==> k >= 0 && gs[k].PlanMade? && !UserTurnAfter(gs, k))
            && (t.Question? <==>
                  k >= 0 && gs[k].Asked? && !UserTurnAfter(gs, k) && !AnsweredAfter(gs, k, gs[k].callID))
  {
    hide UserTurnAfter, AnsweredAfter;
  }

  lemma BlocksLast(ls: seq<Line>, gs: seq<Signal>, k: int, j: int)
    requires |ls| == |gs| && LastBlocking(gs) == k && BlocksAt(ls, j)
    requires forall i, id | 0 <= i < |ls| :: LineSignal(ls[i], gs[i], id)
    ensures j == k
  {
    hide IsPlanLine, IsQuestionLine, IsUserLine, IsOutputOf, LastBlocking;
    assert LineSignal(ls[j], gs[j], "");
    assert Blocking(gs[j]) && j <= k;
    assert LineSignal(ls[k], gs[k], "");
  }

  predicate LineSignal(l: Line, g: Signal, id: string) {
    && (g.PlanMade? <==> IsPlanLine(l)) && (g.Asked? <==> IsQuestionLine(l)) && (g.UserTurn? <==> IsUserLine(l))
    && (g.Asked? ==> g == Asked(l.callID, l.args)) && (g == Answered(id) <==> IsOutputOf(l, id))
  }

  lemma DeclaredAt(ls: seq<Line>, gs: seq<Signal>, k: nat)
    requires |ls| == |gs| && k < |ls| && LastBlocking(gs) == k
    requires forall i, id | 0 <= i < |ls| :: LineSignal(ls[i], gs[i], id)
    ensures BlocksAt(ls, k) <==> !UserTurnAfter(gs, k) && (gs[k].Asked? ==> !AnsweredAfter(gs, k, gs[k].callID))
  {
    hide IsPlanLine, IsQuestionLine, IsUserLine, IsOutputOf;
    assert LineSignal(ls[k], gs[k], "");
    forall j | k < j < |ls|
      ensures !IsPlanLine(ls[j]) && !IsQuestionLine(ls[j])
      ensures IsUserLine(ls[j]) <==> gs[j].UserTurn?
      ensures IsOutputOf(ls[j], ls[k].callID) <==> gs[j] == Answered(ls[k].callID)
    {
      assert LineSignal(ls[j], gs[j], ls[k].callID);
    }
  }

  /** Questions without a later output, in order. */
  function RemoveFirst(open: seq<Signal>, id: string): seq<Signal> {
    if open == [] then []
    else if open[0].Asked? && open[0].callID == id then open[1..]
    else [open[0]] + RemoveFirst(open[1..], id)
  }

  function AfterSignal(open: seq<Signal>, g: Signal): seq<Signal> {
    match g
    case Asked(_, _) => open + [g]
    case Answered(id) => RemoveFirst(open, id)
    case _ => open
  }

  function OpenCalls(gs: seq<Signal>): seq<Signal> {
    if gs == [] then [] else AfterSignal(OpenCalls(gs[..|gs| - 1]), gs[|gs| - 1])
  }

  lemma {:induction false} RemoveFirstKeepsLast(open: seq<Signal>, id: string)
    requires open != [] && open[|open| - 1].Asked? && open[|open| - 1].callID != id
    ensures RemoveFirst(open, id) != []
    ensures RemoveFirst(open, id)[|RemoveFirst(open, id)| - 1] == open[|open| - 1]
  {
    if !(open[0].Asked? && open[0].callID == id) && |open| > 1 { RemoveFirstKeepsLast(open[1..], id); }
  }

  /** Question calls with pairwise different ids. */
  predicate DistinctCalls(gs: seq<Signal>) {
    forall i, j | 0 <= i < j < |gs| && gs[i].Asked? && gs[j].Asked? :: gs[i].callID != gs[j].callID
  }

  /** Question k has had no output yet. */
  predicate OpenAt(gs: seq<Signal>, k: int, g: Signal) {
    0 <= k < |gs| && gs[k] == g && g.Asked? && !AnsweredAfter(gs, k, g.callID)
  }

  /** While no call id is used twice, the open calls are the questions that no later output answers. */
  lemma {:induction false} OpenCallsMean(gs: seq<Signal>, g: Signal)
    requires DistinctCalls(gs)
    ensures g in OpenCalls(gs) <==> exists k :: OpenAt(gs, k, g)
    ensures UniqueCalls(OpenCalls(gs))
  {
    hide RemoveFirst, OpenAt, UniqueCalls, AnsweredAfter;
    if gs == [] {
      NothingOpen(g);
    } else {
      var n := |gs| - 1;
      var init, last := gs[..n], gs[n];
      assert forall i | 0 <= i < n :: init[i] == gs[i];
      OpenCallsMean(init, g);
      OpenStep(init, last, g);
      assert gs == init + [last];
      if last.Asked? {
        forall h | h in OpenCalls(init) ensures h.Asked? && h.callID != last.callID {
          OpenCallsMean(init, h);
          OpenDiffers(init, last, h);
        }
      }
      AfterMeans(OpenCalls(init), last, g);
    }
  }

  /** The same of one step. */
  lemma AfterMeans(open: seq<Signal>, last: Signal, g: Signal)
    requires UniqueCalls(open)
    requires last.Asked? ==> forall h <- open :: h.Asked? && h.callID != last.callID
    ensures g in AfterSignal(open, last) <==> (g == last && g.Asked?) || (g in open && last != Answered(g.callID))
    ensures UniqueCalls(AfterSignal(open, last))
  {
    hide RemoveFirst;
    assert forall h <- open :: h.Asked?;
    if last.Asked? { UniqueMore(open, last); }
    if last.Answered? { RemoveMeans(open, last.callID, g); }
  }

  lemma OpenDiffers(init: seq<Signal>, last: Signal, h: Signal)
    requires DistinctCalls(init + [last]) && last.Asked? && exists k :: OpenAt(init, k, h)
    ensures h.Asked? && h.callID != last.callID
  {
    hide AnsweredAfter;
    var gs := init + [last];
    var k :| OpenAt(init, k, h);
    assert gs[k] == h && gs[|init|] == last;
  }

  lemma NothingOpen(g: Signal)
    ensures !(exists k :: OpenAt([], k, g)) && UniqueCalls(OpenCalls([])) && g !in OpenCalls([])
  {
  }

  predicate UniqueCalls(open: seq<Signal>) {
    && (forall g <- open :: g.Asked?)
    && forall i, j | 0 <= i < j < |open| :: open[i].callID != open[j].callID
  }

  lemma UniqueMore(open: seq<Signal>, g: Signal)
    requires UniqueCalls(open) && g.Asked? && forall h <- open :: h.callID != g.callID
    ensures UniqueCalls(open + [g])
  {
    var more := open + [g];
    forall i, j | 0 <= i < j < |more| ensures more[i].callID != more[j].callID { assert open[i] in open; }
  }

  lemma {:induction false} RemoveMeans(open: seq<Signal>, id: string, g: Signal)
    requires UniqueCalls(open)
    ensures g in RemoveFirst(open, id) <==> g in open && g.callID != id
    ensures UniqueCalls(RemoveFirst(open, id))
  {
    if open != [] {
      assert open[0] in open && forall h <- open[1..] :: h in open;
      assert open == [open[0]] + open[1..];
      RemoveMeans(open[1..], id, g);
      if open[0].callID == id {
        assert forall h <- open[1..] :: h.callID != id;
      } else {
        var rest := RemoveFirst(open[1..], id);
        forall h | h in rest ensures h.Asked? && h.callID != open[0].callID {
          RemoveMeans(open[1..], id, h);
          assert h in open[1..];
        }
        UniqueFront(open[0], rest);
      }
    }
  }

  lemma UniqueFront(g: Signal, rest: seq<Signal>)
    requires UniqueCalls(rest) && g.Asked? && forall h <- rest :: h.callID != g.callID
    ensures UniqueCalls([g] + rest)
  {
    var all := [g] + rest;
    forall i, j | 0 <= i < j < |all| ensures all[i].callID != all[j].callID { assert all[j] == rest[j - 1]; }
  }

  /** One more signal opens its own question and closes the one it answers. */
  lemma OpenStep(init: seq<Signal>, last: Signal, g: Signal)
    ensures (exists k :: OpenAt(init, k, g)) ==> g.Asked?
    ensures (exists k :: OpenAt(init + [last], k, g))
       <==> (last == g && g.Asked?) || ((exists k :: OpenAt(init, k, g)) && last != Answered(g.callID))
  {
    var gs, n := init + [last], |init|;
    if k :| OpenAt(gs, k, g) {
      if k < n {
        assert forall j | k < j < n :: init[j] == gs[j];
        assert OpenAt(init, k, g) && gs[n] == last;
      }
    }
    if last == g && g.Asked? { assert OpenAt(gs, n, g); }
    if k :| OpenAt(init, k, g) && last != Answered(g.callID) { assert OpenAt(gs, k, g); }
  }

  lemma {:induction false} UnansweredIsLastOpen(gs: seq<Signal>)
    requires var s := ScanAll(gs); s.lastTool.Question? && !s.answered
    ensures var open := OpenCalls(gs); var k := LastBlocking(gs);
            k >= 0 && open != [] && open[|open| - 1] == gs[k] && gs[k].Asked? && gs[k].callID == ScanAll(gs).questionID
  {
    var n := |gs| - 1;
    var init := gs[..n];
    if !gs[n].Asked? {
      UnansweredIsLastOpen(init);
      if gs[n].Answered? { RemoveFirstKeepsLast(OpenCalls(init), gs[n].callID); }
    }
  }

  /** Whenever the verdict is a question, the question panel has one to show: the list of open
      calls is not empty and ends with the very call the verdict is about. */
  lemma QuestionVerdictHasQuestion(gs: seq<Signal>)
    requires VerdictOf(ScanAll(gs)) == Question
    ensures var open := OpenCalls(gs); var k := LastBlocking(gs);
            k >= 0 && gs[k].Asked? && open != [] && open[|open| - 1] == gs[k]
  {
    UnansweredIsLastOpen(gs);
  }

  // ----- the scanning loops -----

  function Signals(ls: seq<Line>): seq<Signal> { seq(|ls|, i requires 0 <= i < |ls| => SignalOf(ls[i])) }

  lemma SignalsOneMore(ls: seq<Line>, l: Line)
    ensures Signals(ls + [l]) == Signals(ls) + [SignalOf(l)]
    ensures ScanAll(Signals(ls + [l])) == ScanOne(ScanAll(Signals(ls)), SignalOf(l))
    ensures OpenCalls(Signals(ls + [l])) == AfterSignal(OpenCalls(Signals(ls)), SignalOf(l))
  {
    assert (Signals(ls) + [SignalOf(l)])[..|ls|] == Signals(ls);
    assert Signals(ls + [l]) == Signals(ls) + [SignalOf(l)];
  }

  method LastPendingBlockingToolCodex(file: Bytes, decode: Bytes -> Option<Line>) returns (verdict: Tool)
    ensures Declared(Signals(Entries(file, decode)), verdict)
  {
    hide Declared, LinesOf, ScanAll, ScanOne, Signals, SignalOf, VerdictOf;
    var raw := LinesOf(file);
    var s := Fresh;
    var i := 0;
    assert ScanAll(Signals([])) == Fresh by { NothingScanned(); }
    while i < |raw|
      invariant i <= |raw|
      invariant s == ScanAll(Signals(Decode(raw[..i], decode)))
    {
      DecodeOneMore(raw, i, decode);
      ghost var ls := Decode(raw[..i], decode);
      assert ls + [] == ls;
      i := i + 1;
      if raw[i - 1] == [] { continue; }
      var l := decode(raw[i - 1]);
      if l.None? { continue; }
      SignalsOneMore(ls, l.value);
      s := TakeLine(s, l.value);
    }
    assert raw[..i] == raw;
    VerdictIsDeclared(Signals(Entries(file, decode)));
    verdict := Verdict(s);
  }

  lemma NothingScanned()
    ensures ScanAll(Signals([])) == Fresh && OpenCalls(Signals([])) == []
  {
  }

  method Verdict(s: Scan) returns (verdict: Tool)
    ensures verdict == VerdictOf(s)
  {
    if s.lastTool == Question && s.answered { return NoTool; }
    if s.lastTool != NoTool && !s.humanAfter { return s.lastTool; }
    return NoTool;
  }

  /** One line of the loop over the four local variables. */
  method TakeLine(s: Scan, l: Line) returns (r: Scan)
    ensures r == ScanOne(s, SignalOf(l))
  {
    var lastTool, humanAfter, questionID, answered := s.lastTool, s.humanAfter, s.questionID, s.answered;
    if l.kind == "event_msg" {
      if l.payload == "item_completed" && l.itemKind == "Plan" {
        lastTool, humanAfter, questionID, answered := Plan, false, "", false;
      }
    } else if l.kind == "response_item" {
      if l.payload == "function_call" {
        if l.name == "request_user_input" {
          lastTool, humanAfter, questionID, answered := Question, false, l.callID, false;
        }
      } else if l.payload == "function_call_output" {
        if lastTool == Question && l.callID == questionID { answered := true; }
      } else if l.payload == "message" {
        if l.role == "user" && lastTool != NoTool { humanAfter := true; }
      }
    }
    r := Scan(lastTool, humanAfter, questionID, answered);
  }

  /** Drops the first open call with this id, as the inner loop does. */
  method DropCall(open: seq<Signal>, id: string) returns (rest: seq<Signal>)
    requires forall g <- open :: g.Asked?
    ensures rest == RemoveFirst(open, id) && forall g <- rest :: g.Asked?
  {
    hide RemoveFirst;
    var i := 0;
    RemoveFirstEnds(open, id);
    while i < |open|
      invariant i <= |open|
      invariant RemoveFirst(open, id) == open[..i] + RemoveFirst(open[i..], id)
    {
      RemoveFirstStep(open, i, id);
      assert open[i] in open;
      if open[i].callID == id { return open[..i] + open[i + 1..]; }
      i := i + 1;
    }
    rest := open;
  }

  lemma RemoveFirstEnds(open: seq<Signal>, id: string)
    ensures open[..0] + RemoveFirst(open[0..], id) == RemoveFirst(open, id)
    ensures open[..|open|] + RemoveFirst(open[|open|..], id) == open
  {
    assert open[0..] == open && open[..0] == [] && open[|open|..] == [];
  }

  lemma RemoveFirstStep(open: seq<Signal>, i: nat, id: string)
    requires i < |open| && open[i].Asked?
    ensures open[..i] + RemoveFirst(open[i..], id) ==
              if open[i].callID == id then open[..i] + open[i + 1..] else open[..i + 1] + RemoveFirst(open[i + 1..], id)
  {
    var tail := open[i..];
    assert tail[0] == open[i] && tail[1..] == open[i + 1..];
    if open[i].callID != id {
      assert open[..i + 1] == open[..i] + [open[i]];
      Regroup(open[..i], [open[i]], RemoveFirst(open[i + 1..], id));
    }
  }

  /** The id of the question the panel shows: the last open call, provided its arguments parse. */
  method ReadPendingQuestion(file: Bytes, decode: Bytes -> Option<Line>, parse: string -> bool)
    returns (id: Option<string>)
    ensures var open := OpenCalls(Signals(Entries(file, decode)));
            id == if open != [] && open[|open| - 1].Asked? && parse(open[|open| - 1].args)
                  then Some(open[|open| - 1].callID)
                  else None
    ensures VerdictOf(ScanAll(Signals(Entries(file, decode)))) == Question ==>
              var gs := Signals(Entries(file, decode)); var k := LastBlocking(gs);
              k >= 0 && gs[k].Asked? && (id == if parse(gs[k].args) then Some(gs[k].callID) else None)
  {
    hide LinesOf, OpenCalls, ScanAll, Signals, SignalOf, AfterSignal, VerdictOf, LastBlocking;
    var raw := LinesOf(file);
    var open: seq<Signal> := [];
    var i := 0;
    NothingScanned();
    while i < |raw|
      invariant i <= |raw|
      invariant open == OpenCalls(Signals(Decode(raw[..i], decode)))
      invariant forall g <- open :: g.Asked?
    {
      DecodeOneMore(raw, i, decode);
      ghost var ls := Decode(raw[..i], decode);
      assert ls + [] == ls;
      i := i + 1;
      if raw[i - 1] == [] { continue; }
      var l := decode(raw[i - 1]);
      if l.None? { continue; }
      SignalsOneMore(ls, l.value);
      open := TakeCall(open, l.value);
    }
    assert raw[..i] == raw;
    ghost var gs := Signals(Entries(file, decode));
    if VerdictOf(ScanAll(gs)) == Question { QuestionVerdictHasQuestion(gs); }
    if open == [] { return None; }
    var latest := open[|open| - 1];
    assert latest in open;
    if !parse(latest.args) { return None; }
    return Some(latest.callID);
  }

  /** One line of the loop over the open calls. */
  method TakeCall(open0: seq<Signal>, l: Line) returns (open: seq<Signal>)
    requires forall g <- open0 :: g.Asked?
    ensures open == AfterSignal(open0, SignalOf(l)) && forall g <- open :: g.Asked?
  {
    hide RemoveFirst;
    open := open0;
    if l.kind != "response_item" { return; }
    if l.payload == "function_call" {
      if l.name != "request_user_input" { return; }
      open := open + [Asked(l.callID, l.args)];
    } else if l.payload == "function_call_output" {
      open := DropCall(open, l.callID);
    }
  }
}
