/** The conversation shown for a Claude transcript, read incrementally: only appended lines
    are decoded and the previous entries are reused. */
module ClaudeConversation {
  import opened Options
  import opened Lines
  import opened Seqs
  import opened Text
  import opened Conversation

  /** One decoded transcript line: its displayable text, if any, whether it calls the
      plan-approval tool, and its plan slug. */
  datatype Line =
    | UserLine(text: Option<string>, timestamp: string, slug: string)
    | AssistantLine(text: Option<string>, exitPlan: bool, timestamp: string, slug: string)
    | OtherLine(timestamp: string, slug: string)

  const TASK_TAG := "<task-notification>"

  predicate IsTask(e: Entry) { e.role.Human? && Contains(e.content, TASK_TAG) }

  /** The entries of one line. */
  function Emit(l: Line): seq<Entry> {
    match l
    case UserLine(text, ts, _) => (if text.Some? then [Entry(Human, text.value, ts, false)] else [])
    case AssistantLine(text, exitPlan, ts, _) =>
      (if text.Some? then [Entry(Assistant, text.value, ts, false)] else [])
      + (if exitPlan then [Entry(PlanSaved, "", ts, false)] else [])
    case OtherLine(_, _) => []
  }

  function EmitAll(ls: seq<Line>): seq<Entry> {
    if ls == [] then [] else EmitAll(ls[..|ls| - 1]) + Emit(ls[|ls| - 1])
  }

  lemma {:induction false} EmitAppend(a: seq<Line>, b: seq<Line>)
    ensures EmitAll(a + b) == EmitAll(a) + EmitAll(b)
  {
    if b == [] {
      assert a + b == a;
    } else {
      assert (a + b)[..|a + b| - 1] == a + b[..|b| - 1];
      EmitAppend(a, b[..|b| - 1]);
      Regroup(EmitAll(a), EmitAll(b[..|b| - 1]), Emit(b[|b| - 1]));
    }
  }

  /** What a line adds to those around it: a user's text is the user's, an assistant's is the
      assistant's, and a call of the plan tool is a card behind it. */
  lemma LineShows(a: seq<Line>, l: Line, b: seq<Line>)
    ensures var head, tail := EmitAll(a), EmitAll(b);
            var shown := EmitAll((a + [l]) + b);
            && (l.UserLine? && l.text.Some? ==>
                  shown == (head + [Entry(Human, l.text.value, l.timestamp, false)]) + tail)
            && (l.AssistantLine? && l.text.Some? && !l.exitPlan ==>
                  shown == (head + [Entry(Assistant, l.text.value, l.timestamp, false)]) + tail)
            && (l.AssistantLine? && l.text.Some? && l.exitPlan ==>
                  shown == (head + [Entry(Assistant, l.text.value, l.timestamp, false),
                                    Entry(PlanSaved, "", l.timestamp, false)]) + tail)
            && (l.AssistantLine? && l.text.None? && l.exitPlan ==>
                  shown == (head + [Entry(PlanSaved, "", l.timestamp, false)]) + tail)
            && (l.OtherLine? || (l.UserLine? && l.text.None?) || (l.AssistantLine? && l.text.None? && !l.exitPlan) ==>
                  shown == head + tail)
  {
    hide EmitAll;
    EmitAppend(a + [l], b);
    EmitAppend(a, [l]);
    EmitSingle(l);
    assert EmitAll(a) + [] == EmitAll(a);
  }

  lemma EmitSingle(l: Line)
    ensures EmitAll([l]) == Emit(l)
  {
    assert [l][..0] == [];
  }

  // ----- notifications -----

  /** Whether a task notification is still waiting for its answer after `es`. */
  function Pending(es: seq<Entry>, before: bool): bool {
    if es == [] then before
    else
      var e := es[|es| - 1];
      if IsTask(e) then true else if e.role.Assistant? then false else Pending(es[..|es| - 1], before)
  }

  function MarkOne(e: Entry, pending: bool): Entry {
    if IsTask(e) || (e.role.Assistant? && pending) then e.(notification := true) else e
  }

  /** Tags every task notification and the assistant entry that answers it. */
  function Mark(es: seq<Entry>, pending: bool): (r: seq<Entry>)
    ensures |r| == |es|
  {
    if es == [] then []
    else Mark(es[..|es| - 1], pending) + [MarkOne(es[|es| - 1], Pending(es[..|es| - 1], pending))]
  }

  lemma {:induction false} PendingAppend(a: seq<Entry>, b: seq<Entry>, p: bool)
    ensures Pending(a + b, p) == Pending(b, Pending(a, p))
  {
    if b == [] {
      assert a + b == a;
    } else {
      assert (a + b)[..|a + b| - 1] == a + b[..|b| - 1];
      PendingAppend(a, b[..|b| - 1], p);
    }
  }

  lemma {:induction false} MarkAppend(a: seq<Entry>, b: seq<Entry>, p: bool)
    ensures Mark(a + b, p) == Mark(a, p) + Mark(b, Pending(a, p))
  {
    if b == [] {
      assert a + b == a;
    } else {
      var n := |b| - 1;
      assert (a + b)[..|a + b| - 1] == a + b[..n];
      MarkAppend(a, b[..n], p);
      PendingAppend(a, b[..n], p);
      hide MarkOne;
    }
  }

  /** Entry j is a task notification that no assistant entry has answered by the end. */
  predicate Waits(es: seq<Entry>, j: int) {
    0 <= j < |es| && IsTask(es[j]) && forall k | j < k < |es| :: !es[k].role.Assistant?
  }

  lemma {:induction false} PendingMeans(es: seq<Entry>)
    ensures Pending(es, false) <==> exists j :: Waits(es, j)
  {
    hide Contains;
    if es != [] {
      var n := |es| - 1;
      PendingMeans(es[..n]);
      if IsTask(es[n]) {
        assert Waits(es, n);
      } else if j :| Waits(es[..n], j) {
        assert es[n].role.Assistant? || Waits(es, j);
      }
      if j :| Waits(es, j) { assert j == n || Waits(es[..n], j); }
    }
  }

  /** Exactly the human entries with a task notification are tagged, and each assistant entry that is
      the first after one; nothing else about an entry changes. */
  lemma MarkMeans(es: seq<Entry>, i: nat)
    requires i < |es|
    ensures Mark(es, false)[i] ==
              if (es[i].role.Human? && Contains(es[i].content, "<task-notification>"))
                 || (es[i].role.Assistant? && exists j :: Waits(es[..i], j))
              then es[i].(notification := true)
              else es[i]
  {
    hide Mark, Waits, Contains, Pending;
    MarkStep(es, i);
    PendingMeans(es[..i]);
    assert es == es[..i + 1] + es[i + 1..];
    MarkAppend(es[..i + 1], es[i + 1..], false);
  }

  /** Position of the first assistant entry, or the length. */
  function FirstAssistant(es: seq<Entry>): (k: nat)
    ensures k <= |es|
    ensures k < |es| ==> es[k].role.Assistant?
    ensures forall j | 0 <= j < k :: !es[j].role.Assistant?
  {
    if es == [] || es[0].role.Assistant? then 0 else 1 + FirstAssistant(es[1..])
  }

  /** The entries not visited yet, the next answer possibly tagged already. */
  function Ahead(es: seq<Entry>, pending: bool): (r: seq<Entry>)
    ensures |r| == |es|
  {
    var k := FirstAssistant(es);
    if pending && k < |es| then es[k := es[k].(notification := true)] else es
  }

  lemma AheadStep(t: seq<Entry>, p: bool)
    requires t != []
    ensures Ahead(t, p)[0] == if t[0].role.Assistant? && p then t[0].(notification := true) else t[0]
    ensures Ahead(t, p)[1..] == if t[0].role.Assistant? then t[1..] else Ahead(t[1..], p)
    ensures IsTask(Ahead(t, p)[0]) <==> IsTask(t[0])
  {
  }

  /** The inner loop of a task notification: it looks past position i for the answer. */
  method NextAssistant(a: array<Entry>, i: nat) returns (j: nat)
    requires i <= a.Length
    ensures j == i + FirstAssistant(a[i..])
  {
    j := i;
    while j < a.Length && !a[j].role.Assistant?
      invariant i <= j <= a.Length
      invariant i + FirstAssistant(a[i..]) == j + FirstAssistant(a[j..])
    {
      assert a[j..][1..] == a[j + 1..];
      j := j + 1;
    }
  }

  /** Where the tagging loop is after k entries of `s`. */
  ghost predicate Tagging(cur: seq<Entry>, front: seq<Entry>, s: seq<Entry>, k: nat) {
    k <= |s| && cur == (front + Mark(s[..k], false)) + Ahead(s[k..], Pending(s[..k], false))
  }

  function Tag(es: seq<Entry>, i: nat): (r: seq<Entry>)
    ensures |r| == |es|
  {
    if i < |es| then es[i := es[i].(notification := true)] else es
  }

  /** A task notification at i and the assistant entry that answers it are tagged. */
  method TagTask(a: array<Entry>, i: nat)
    requires i < a.Length && IsTask(a[i])
    modifies a
    ensures a[..] == AfterEntry(old(a[..]), i)
  {
    hide FirstAssistant, Contains;
    ghost var before := a[..];
    a[i] := a[i].(notification := true);
    assert a[..] == Tag(before, i) && a[i + 1..] == a[..][i + 1..];
    var j := NextAssistant(a, i + 1);
    if j < a.Length { a[j] := a[j].(notification := true); }
    assert a[..] == Tag(Tag(before, i), j);
  }

  /** The tagging loop, in place on the tail of the entries. */
  method MarkNotifications(a: array<Entry>, start: nat)
    requires start <= a.Length
    modifies a
    ensures a[..] == old(a[..start]) + Mark(old(a[start..]), false)
  {
    hide Tagging, Mark, IsTask, Tag;
    ghost var s, front := a[start..], a[..start];
    var i := start;
    assert a[..] == front + s;
    TaggingStart(front, s);
    while i < a.Length
      invariant start <= i <= a.Length
      invariant Tagging(a[..], front, s, i - start)
    {
      ghost var before := a[..];
      TaggingStep(before, front, s, i - start);
      if IsTask(a[i]) { TagTask(a, i); }
      i := i + 1;
    }
    TaggingEnd(a[..], front, s);
  }

  lemma TaggingStart(front: seq<Entry>, s: seq<Entry>)
    ensures Tagging(front + s, front, s, 0)
  {
    assert s[..0] == [] && s[0..] == s && front + [] == front;
  }

  lemma TaggingEnd(cur: seq<Entry>, front: seq<Entry>, s: seq<Entry>)
    requires Tagging(cur, front, s, |s|)
    ensures cur == front + Mark(s, false)
  {
    assert s[..|s|] == s && s[|s|..] == [];
  }

  /** One turn of the tagging loop on values. */
  function AfterEntry(cur: seq<Entry>, i: nat): (r: seq<Entry>)
    requires i < |cur|
    ensures |r| == |cur|
  {
    if IsTask(cur[i]) then Tag(Tag(cur, i), i + 1 + FirstAssistant(Tag(cur, i)[i + 1..])) else cur
  }

  lemma TaggingStep(cur: seq<Entry>, front: seq<Entry>, s: seq<Entry>, k: nat)
    requires k < |s| && Tagging(cur, front, s, k)
    ensures |cur| == |front| + |s|
    ensures Tagging(AfterEntry(cur, |front| + k), front, s, k + 1)
  {
    hide Mark, IsTask, Ahead, FirstAssistant, Pending, Tag, AfterEntry, MarkOne;
    var p := Pending(s[..k], false);
    var head, ahead := front + Mark(s[..k], false), Ahead(s[k..], p);
    var h, rest := ahead[0], ahead[1..];
    MarkStep(s, k);
    AheadFacts(s[k..], p);
    assert s[k..][1..] == s[k + 1..] && ahead == [h] + rest;
    Regroup(front, Mark(s[..k], false), [MarkOne(s[k], p)]);
    if IsTask(s[k]) {
      AfterTask(head, h, rest);
      AnswerTagged(s[k + 1..], p);
    } else {
      AfterOther(head, h, rest);
    }
  }

  /** What is still ahead of the loop, against the tags the visited entry is to have. */
  lemma AheadFacts(t: seq<Entry>, p: bool)
    requires t != []
    ensures var h, rest := Ahead(t, p)[0], Ahead(t, p)[1..];
            && IsTask(h) == IsTask(t[0])
            && (if IsTask(h) then h.(notification := true) == MarkOne(t[0], p) && rest == Ahead(t[1..], p)
                else h == MarkOne(t[0], p) && rest == Ahead(t[1..], if t[0].role.Assistant? then false else p))
  {
    hide IsTask, Ahead;
    TaskIsHuman(t[0]);
    AheadStep(t, p);
    AheadUnpending(t[1..]);
  }

  lemma TagAt(head: seq<Entry>, h: Entry, rest: seq<Entry>)
    ensures Tag(head + ([h] + rest), |head|) == (head + [h.(notification := true)]) + rest
  {
    hide Tag;
    TagAppend(head, [h] + rest, 0);
    TagFirst(h, rest);
    Regroup(head, [h.(notification := true)], rest);
  }

  lemma AfterTask(head: seq<Entry>, h: Entry, rest: seq<Entry>)
    requires IsTask(h)
    ensures AfterEntry(head + ([h] + rest), |head|)
         == (head + [h.(notification := true)]) + Tag(rest, FirstAssistant(rest))
  {
    hide IsTask, Tag, FirstAssistant;
    var cur, head' := head + ([h] + rest), head + [h.(notification := true)];
    assert cur[|head|] == h;
    TagAt(head, h, rest);
    Parts(head', rest);
    TagAppend(head', rest, FirstAssistant(rest));
    assert AfterEntry(cur, |head|) == Tag(head' + rest, |head'| + FirstAssistant(rest));
  }

  lemma AfterOther(head: seq<Entry>, h: Entry, rest: seq<Entry>)
    requires !IsTask(h)
    ensures AfterEntry(head + ([h] + rest), |head|) == (head + [h]) + rest
  {
    hide IsTask, Tag, FirstAssistant;
    Regroup(head, [h], rest);
    assert (head + ([h] + rest))[|head|] == h;
  }

  lemma TaskIsHuman(e: Entry)
    ensures IsTask(e) ==> e.role.Human?
  {
  }

  lemma AheadUnpending(t: seq<Entry>)
    ensures Ahead(t, false) == t
  {
  }

  lemma TagFirst(e: Entry, rest: seq<Entry>)
    ensures Tag([e] + rest, 0) == [e.(notification := true)] + rest
  {
  }

  lemma TagAppend(x: seq<Entry>, y: seq<Entry>, j: nat)
    ensures Tag(x + y, |x| + j) == x + Tag(y, j)
  {
  }

  lemma AnswerTagged(t: seq<Entry>, p: bool)
    ensures var r := Ahead(t, p);
            var k := FirstAssistant(r);
            Ahead(t, true) == Tag(r, k)
  {
    FirstAssistantIgnoresTags(t, Ahead(t, p));
  }

  lemma {:induction false} FirstAssistantIgnoresTags(t: seq<Entry>, r: seq<Entry>)
    requires |t| == |r| && forall i | 0 <= i < |t| :: t[i].role == r[i].role
    ensures FirstAssistant(t) == FirstAssistant(r)
  {
    if t != [] { FirstAssistantIgnoresTags(t[1..], r[1..]); }
  }

  lemma MarkStep(s: seq<Entry>, k: nat)
    requires k < |s|
    ensures s[..k + 1] == s[..k] + [s[k]]
    ensures Mark(s[..k + 1], false) == Mark(s[..k], false) + [MarkOne(s[k], Pending(s[..k], false))]
    ensures Pending(s[..k + 1], false)
         == (if IsTask(s[k]) then true else if s[k].role.Assistant? then false else Pending(s[..k], false))
  {
    assert s[..k + 1][..k] == s[..k];
  }

  // ----- the cap -----

  function Plans(es: seq<Entry>): seq<Entry> {
    if es == [] then []
    else Plans(es[..|es| - 1]) + (if es[|es| - 1].role.PlanSaved? then [es[|es| - 1]] else [])
  }

  /** The last `limit` entries, preceded by the plan entries that would otherwise be dropped. */
  function Cap(es: seq<Entry>, limit: int): seq<Entry> {
    if limit > 0 && |es| > limit then Plans(es[..|es| - limit]) + es[|es| - limit..] else es
  }

  lemma {:induction false} PlansAppend(a: seq<Entry>, b: seq<Entry>)
    ensures Plans(a + b) == Plans(a) + Plans(b)
  {
    if b == [] {
      assert a + b == a;
    } else {
      assert (a + b)[..|a + b| - 1] == a + b[..|b| - 1];
      PlansAppend(a, b[..|b| - 1]);
    }
  }

  lemma {:induction false} PlansTwice(a: seq<Entry>)
    ensures Plans(Plans(a)) == Plans(a)
  {
    if a != [] {
      var last := a[|a| - 1];
      PlansTwice(a[..|a| - 1]);
      PlansAppend(Plans(a[..|a| - 1]), if last.role.PlanSaved? then [last] else []);
      assert [last][..0] == [];
    }
  }

  /** No plan entry is ever lost, however often the cap is applied. */
  lemma CapKeepsPlans(es: seq<Entry>, limit: int)
    ensures Plans(Cap(es, limit)) == Plans(es)
  {
    if limit > 0 && |es| > limit {
      var d := |es| - limit;
      assert es == es[..d] + es[d..];
      PlansAppend(es[..d], es[d..]);
      PlansAppend(Plans(es[..d]), es[d..]);
      PlansTwice(es[..d]);
    }
  }

  /** Capping what was capped before equals capping everything once. */
  lemma CapAbsorbs(a: seq<Entry>, b: seq<Entry>, limit: int)
    ensures Cap(Cap(a, limit) + b, limit) == Cap(a + b, limit)
  {
    if limit > 0 && |a| > limit {
      hide Plans, Cap;
      var d := |a| - limit;
      var moved, tail := (a[d..] + b)[..|b|], (a[d..] + b)[|b|..];
      CapSplit(a[..d], a[d..], limit);
      assert a == a[..d] + a[d..];
      Reparted(a[..d], a[d..], b);
      Reparted(Plans(a[..d]), a[d..], b);
      PlansAppend(a[..d], moved);
      PlansAppend(Plans(a[..d]), moved);
      PlansTwice(a[..d]);
      CapSplit(a[..d] + moved, tail, limit);
      CapSplit(Plans(a[..d]) + moved, tail, limit);
    }
  }

  lemma Reparted(x: seq<Entry>, y: seq<Entry>, b: seq<Entry>)
    ensures (x + y) + b == (x + (y + b)[..|b|]) + (y + b)[|b|..]
  {
    assert y + b == (y + b)[..|b|] + (y + b)[|b|..];
  }

  lemma CapSplit(dropped: seq<Entry>, tail: seq<Entry>, limit: int)
    requires limit > 0 && |tail| == limit
    ensures Cap(dropped + tail, limit) == Plans(dropped) + tail
  {
    Parts(dropped, tail);
    if dropped == [] { assert [] + tail == tail; }
  }

  lemma {:induction false} MarkKeepsPlans(es: seq<Entry>, p: bool)
    ensures Plans(Mark(es, p)) == Plans(es)
  {
    if es != [] {
      var n := |es| - 1;
      MarkKeepsPlans(es[..n], p);
      PlansAppend(Mark(es[..n], p), [MarkOne(es[n], Pending(es[..n], p))]);
      assert [MarkOne(es[n], Pending(es[..n], p))][..0] == [];
    }
  }

  /** Every plan of the transcript is on show, whatever the limit. */
  lemma PlansAlwaysShown(es: seq<Entry>, limit: int)
    ensures Plans(ShowAll(es, limit)) == Plans(es)
  {
    CapKeepsPlans(Mark(es, false), limit);
    MarkKeepsPlans(es, false);
  }

  // ----- incremental reading of entries -----

  /** Tagging restarts at the last entry shown before. */
  function MarkNew(prev: seq<Entry>, all: seq<Entry>): seq<Entry>
    requires |prev| <= |all|
  {
    var start := if |prev| > 0 then |prev| - 1 else 0;
    all[..start] + Mark(all[start..], false)
  }

  function AppendEntries(prev: seq<Entry>, added: seq<Entry>, limit: int): seq<Entry> {
    Cap(MarkNew(prev, prev + added), limit)
  }

  /** A full read. */
  function ShowAll(es: seq<Entry>, limit: int): seq<Entry> { Cap(Mark(es, false), limit) }

  predicate EndsInTask(es: seq<Entry>) { es != [] && IsTask(es[|es| - 1]) }

  /** No notification of the prefix awaits its answer, unless it is the very last entry. */
  predicate Resumable(es: seq<Entry>) { Pending(es, false) ==> EndsInTask(es) }

  predicate Untagged(es: seq<Entry>) { forall e <- es :: !e.notification }

  lemma {:induction false} CapLast(es: seq<Entry>, limit: int)
    ensures es == [] <==> Cap(es, limit) == []
    ensures es != [] ==> Cap(es, limit)[|Cap(es, limit)| - 1] == es[|es| - 1]
  {
  }

  /** Re-tagging from the last shown entry leaves it as it was and tags the new entries as if
      exactly the notifications visible at that entry were waiting. */
  lemma MarkNewIs(a: seq<Entry>, b: seq<Entry>, limit: int)
    ensures var prev := ShowAll(a, limit);
            MarkNew(prev, prev + b) == prev + Mark(b, EndsInTask(a))
  {
    hide Mark, Cap, IsTask, ShowAll, Pending;
    var prev := ShowAll(a, limit);
    ShownLast(a, limit);
    if a == [] {
      assert prev + b == b && [] + Mark(b, false) == Mark(b, false);
    } else {
      var n := |prev| - 1;
      assert prev == prev[..n] + [prev[n]];
      MarkFromLast(prev[..n], prev[n], b);
    }
  }

  lemma MarkFromLast(front: seq<Entry>, l: Entry, b: seq<Entry>)
    requires Mark([l], false) == [l]
    ensures MarkNew(front + [l], (front + [l]) + b) == (front + [l]) + Mark(b, Pending([l], false))
  {
    hide Mark, Pending;
    var all, n := (front + [l]) + b, |front|;
    assert all[n..] == [l] + b && all[..n] == front;
    MarkAppend([l], b, false);
    Regroup(front, [l], Mark(b, Pending([l], false)));
  }

  /** The last entry shown is the last there is, already tagged, and tagging it again alone
      changes nothing. */
  lemma ShownLast(a: seq<Entry>, limit: int)
    ensures var prev := ShowAll(a, limit);
            && (a == [] <==> prev == [])
            && (a != [] ==>
                  var l := prev[|prev| - 1];
                  Mark([l], false) == [l] && Pending([l], false) == EndsInTask(a))
  {
    hide Cap, IsTask, Pending, MarkOne;
    var m := Mark(a, false);
    CapLast(m, limit);
    if a != [] {
      var k := |a| - 1;
      MarkSingle(m[k]);
      MarkedOne(a[k], Pending(a[..k], false));
    }
  }

  lemma MarkedOne(e: Entry, p: bool)
    ensures IsTask(MarkOne(e, p)) == IsTask(e)
    ensures IsTask(e) ==> MarkOne(e, p).(notification := true) == MarkOne(e, p)
  {
  }

  lemma MarkSingle(l: Entry)
    ensures Pending([l], false) == IsTask(l)
    ensures IsTask(l) ==> Mark([l], false) == [l.(notification := true)]
    ensures !IsTask(l) ==> Mark([l], false) == [l]
  {
    assert [l][..0] == [];
  }

  /** Appended entries show as in a full read, notification tags included, whenever the prefix
      has no waiting notification or ends in one. */
  lemma AppendAgrees(a: seq<Entry>, b: seq<Entry>, limit: int)
    requires Resumable(a)
    ensures AppendEntries(ShowAll(a, limit), b, limit) == ShowAll(a + b, limit)
  {
    MarkNewIs(a, b, limit);
    MarkAppend(a, b, false);
    EndsInTaskIsPending(a);
    CapAbsorbs(Mark(a, false), Mark(b, Pending(a, false)), limit);
  }

  lemma EndsInTaskIsPending(a: seq<Entry>)
    ensures EndsInTask(a) ==> Pending(a, false)
  {
  }

  /** ... and the condition is exact: for any other prefix some batch shows differently. */
  lemma AppendAgreesExactly(a: seq<Entry>, limit: int)
    ensures Resumable(a) <==>
            forall b | Untagged(b) :: AppendEntries(ShowAll(a, limit), b, limit) == ShowAll(a + b, limit)
  {
    if Resumable(a) {
      forall b | Untagged(b) ensures AppendEntries(ShowAll(a, limit), b, limit) == ShowAll(a + b, limit) {
        AppendAgrees(a, b, limit);
      }
    } else {
      var e := Entry(Assistant, "", "", false);
      assert Untagged([e]);
      MarkNewIs(a, [e], limit);
      MarkAppend(a, [e], false);
      assert [e][..0] == [];
      assert Mark([e], EndsInTask(a)) == [e] && Mark([e], Pending(a, false)) == [e.(notification := true)];
      CapLast(ShowAll(a, limit) + [e], limit);
      CapLast(Mark(a, false) + [e.(notification := true)], limit);
    }
  }

  // ----- entries that are read twice -----

  /** Showing `l` again after the entries `x` does no harm: the tags that entries to come will get do
      not change, none of `l` is a plan card, and the window stays as it was. */
  predicate Harmless(x: seq<Entry>, l: seq<Entry>, limit: int) {
    var again := EndsInTask(x);
    && Pending(l, again) == Pending(x, false)
    && Plans(l) == []
    && Recurs(Mark(x, false), Mark(l, again), limit)
  }

  /** What is shown after `l` was read twice, and what should be. */
  lemma TwiceRead(x: seq<Entry>, l: seq<Entry>, b: seq<Entry>, limit: int)
    ensures var m, again := Mark(x, false), EndsInTask(x);
            && AppendEntries(ShowAll(x, limit), l + b, limit)
            == Cap(Cap(m + Mark(l, again), limit) + Mark(b, Pending(l, again)), limit)
            && ShowAll(x + b, limit) == Cap(Cap(m, limit) + Mark(b, Pending(x, false)), limit)
  {
    hide Mark, Cap, Pending, EndsInTask, MarkNew;
    var m, again := Mark(x, false), EndsInTask(x);
    var t, r := Mark(l, again), Mark(b, Pending(l, again));
    MarkNewIs(x, l + b, limit);
    MarkAppend(l, b, again);
    CapAbsorbs(m, t + r, limit);
    Regroup(m, t, r);
    CapAbsorbs(m + t, r, limit);
    MarkAppend(x, b, false);
    CapAbsorbs(m, Mark(b, Pending(x, false)), limit);
  }

  /** What is pushed out of a recurring window holds a plan exactly when what came in does. */
  lemma {:induction false} PlansRecur(s: seq<Entry>, d: nat, n: nat)
    requires d + n <= |s| && Repeats(s, d, n)
    ensures Plans(s[d..d + n]) == [] <==> Plans(s[|s| - n..]) == []
    decreases |s| - d
  {
    if d + n < |s| && n > 0 {
      PlansRecur(s, d + 1, n);
      var rest := s[d + 1..d + n];
      assert s[d..d + n] == [s[d]] + rest && s[d + 1..d + 1 + n] == rest + [s[d + n]];
      assert s[d] == s[d + n];
      hide Plans;
      PlansAppend([s[d]], rest);
      PlansAppend(rest, [s[d]]);
    } else {
      assert s[d..d + n] == s[|s| - n..];
    }
  }

  /** The cap of a doubled ending is the cap before exactly when the ending holds no plan card and the
      window recurs. */
  lemma CapTwice(m: seq<Entry>, t: seq<Entry>, limit: int)
    ensures Cap(m + t, limit) == Cap(m, limit) <==> Plans(t) == [] && Recurs(m, t, limit)
  {
    hide Plans, Cap, Repeats;
    if t == [] {
      assert m + t == m;
      NoPlans();
    } else if 0 < limit <= |m| {
      var d, s := |m| - limit, m + t;
      var out := s[d..d + |t|];
      CapSplit(m[..d], m[d..], limit);
      CapSplit(s[..d + |t|], s[d + |t|..], limit);
      assert m == m[..d] + m[d..] && s == s[..d + |t|] + s[d + |t|..] && s[..d + |t|] == m[..d] + out;
      PlansAppend(m[..d], out);
      SameSplit(Plans(m[..d]), Plans(out), m[d..], s[d + |t|..]);
      RepeatsIsShift(s, d, |t|);
      assert s[d..|s| - |t|] == m[d..] && s[|s| - |t|..] == t;
      if Repeats(s, d, |t|) { PlansRecur(s, d, |t|); }
    } else {
      CapGrows(m, t, limit);
    }
  }

  lemma NoPlans()
    ensures Plans([]) == []
  {
  }

  lemma CapGrows(m: seq<Entry>, t: seq<Entry>, limit: int)
    requires t != [] && !(0 < limit <= |m|)
    ensures |Cap(m + t, limit)| > |Cap(m, limit)|
  {
  }

  lemma SameSplit(p: seq<Entry>, q: seq<Entry>, x: seq<Entry>, y: seq<Entry>)
    requires |x| == |y|
    ensures (p + q) + y == p + x <==> q == [] && x == y
  {
    if (p + q) + y == p + x {
      assert |q| == 0;
      Parts(p, x);
      Parts(p, y);
      assert p + q == p;
    }
    if q == [] { assert p + q == p; }
  }

  /** The next entries show as in a full read, whatever they are, exactly when reading `l` twice does
      no harm. */
  lemma LateEntriesExact(x: seq<Entry>, l: seq<Entry>, limit: int)
    ensures Harmless(x, l, limit) <==>
            forall b | Untagged(b) ::
              AppendEntries(ShowAll(x, limit), l + b, limit) == ShowAll(x + b, limit)
  {
    hide Mark, Cap, Pending, EndsInTask, AppendEntries, ShowAll, Recurs, Plans;
    if Harmless(x, l, limit) {
      forall b | Untagged(b)
        ensures AppendEntries(ShowAll(x, limit), l + b, limit) == ShowAll(x + b, limit)
      {
        HarmlessAgrees(x, l, b, limit);
      }
    } else {
      var e := Entry(Assistant, "", "", false);
      assert Untagged([]) && Untagged([e]);
      HarmShows(x, l, e, limit);
    }
  }

  lemma HarmlessAgrees(x: seq<Entry>, l: seq<Entry>, b: seq<Entry>, limit: int)
    requires Harmless(x, l, limit)
    ensures AppendEntries(ShowAll(x, limit), l + b, limit) == ShowAll(x + b, limit)
  {
    hide Mark, Cap, Pending, EndsInTask, AppendEntries, ShowAll, Recurs, Plans;
    TwiceRead(x, l, b, limit);
    MarkKeepsPlans(l, EndsInTask(x));
    CapTwice(Mark(x, false), Mark(l, EndsInTask(x)), limit);
  }

  /** Any harm shows as soon as nothing, or one answer, follows. */
  lemma HarmShows(x: seq<Entry>, l: seq<Entry>, e: Entry, limit: int)
    requires !Harmless(x, l, limit) && e.role.Assistant? && !e.notification
    ensures || (l != [] && AppendEntries(ShowAll(x, limit), l + [], limit) != ShowAll(x + [], limit))
            || AppendEntries(ShowAll(x, limit), l + [e], limit) != ShowAll(x + [e], limit)
  {
    hide Mark, Cap, Pending, EndsInTask, AppendEntries, ShowAll, Recurs, Plans;
    var m, t := Mark(x, false), Mark(l, EndsInTask(x));
    var p, q := Pending(l, EndsInTask(x)), Pending(x, false);
    MarkKeepsPlans(l, EndsInTask(x));
    CapTwice(m, t, limit);
    if p != q {
      TwiceRead(x, l, [e], limit);
      TagTells(Cap(m + t, limit), Cap(m, limit), e, p, limit);
    } else {
      TwiceRead(x, l, [], limit);
      MarkNothing(p);
      MarkNothing(q);
      CapAbsorbs(m + t, [], limit);
      CapAbsorbs(m, [], limit);
      assert (m + t) + [] == m + t && m + [] == m;
      if l == [] { TwiceNothing(m, t, limit); }
    }
  }

  lemma TwiceNothing(m: seq<Entry>, t: seq<Entry>, limit: int)
    requires t == []
    ensures Plans(t) == [] && Recurs(m, t, limit)
  {
  }

  lemma MarkNothing(p: bool)
    ensures Mark([], p) == []
  {
  }

  lemma TagTells(x: seq<Entry>, y: seq<Entry>, e: Entry, p: bool, limit: int)
    requires e.role.Assistant? && !e.notification
    ensures Cap(x + Mark([e], p), limit) != Cap(y + Mark([e], !p), limit)
  {
    assert [e][..0] == [];
    hide Cap;
    CapLast(x + Mark([e], p), limit);
    CapLast(y + Mark([e], !p), limit);
  }

  /** Without late entries, that is to say that the transcript can be resumed; and while the limit
      cuts nothing, late entries always do harm. */
  lemma UncutHarmless(x: seq<Entry>, l: seq<Entry>, limit: int)
    requires l == [] || limit <= 0 || |x| < limit
    ensures Harmless(x, l, limit) <==> l == [] && Resumable(x)
  {
    hide Mark, IsTask;
    if l == [] {
      MarkNothing(EndsInTask(x));
      TwiceNothing(Mark(x, false), Mark(l, EndsInTask(x)), limit);
      EndsInTaskIsPending(x);
    }
  }

  // ----- reading the file -----

  /** Index of the first line with a plan slug, or the number of lines. */
  function FirstSlug(ls: seq<Line>): (k: nat)
    ensures k <= |ls|
  {
    if ls == [] || ls[0].slug != "" then 0 else 1 + FirstSlug(ls[1..])
  }

  predicate CallsExitPlan(ls: seq<Line>) {
    exists l <- ls :: l.AssistantLine? && l.exitPlan
  }

  predicate ShowsPlan(es: seq<Entry>) {
    exists e <- es :: e.role.PlanSaved?
  }

  /** A plan card at the first slug, for transcripts that never call the approval tool. */
  function WithSlugCard(prev: seq<Entry>, ls: seq<Line>): (r: seq<Entry>)
    ensures |prev| <= |r|
  {
    var all := prev + EmitAll(ls);
    var k := FirstSlug(ls);
    if k == |ls| || CallsExitPlan(ls) || ShowsPlan(all) then all
    else
      var at := |prev| + |EmitAll(ls[..k + 1])|;
      Inserted(all, at, Entry(PlanSaved, "", ls[k].timestamp, false))
  }

  function Inserted(es: seq<Entry>, at: nat, e: Entry): (r: seq<Entry>)
    ensures |r| == |es| + 1
  {
    var i := if at <= |es| then at else |es|;
    es[..i] + [e] + es[i..]
  }

  function Scan(prev: seq<Entry>, ls: seq<Line>, limit: int): seq<Entry> {
    Cap(MarkNew(prev, WithSlugCard(prev, ls)), limit)
  }

  /** The displayed entries, or None for Go's nil slice, and the offset to resume from: the size at
      the stat. */
  function ReadIncremental(v: Reading, limit: int, prev: Option<seq<Entry>>, prevOffset: int,
                           decode: Bytes -> Option<Line>)
    : (Option<seq<Entry>>, nat)
  {
    var restart := prevOffset > |v.at| || prevOffset < 0;
    var offset := if restart then 0 else prevOffset;
    var known := if restart then None else prev;
    if offset > 0 && offset == |v.at| && known.Some? then (known, offset)
    else
      var start := if offset > 0 && known.Some? then known.value else [];
      var shown := Scan(start, Entries(From(v.All(), offset), decode), limit);
      (if shown == [] && !(offset > 0 && known.Some?) then None else Some(shown), |v.at|)
  }

  function Shown(r: Option<seq<Entry>>): seq<Entry> { r.Or([], (es: seq<Entry>) => es) }

  function FullRead(v: Reading, limit: int, decode: Bytes -> Option<Line>): seq<Entry> {
    Shown(ReadIncremental(v, limit, None, 0, decode).0)
  }

  /** A caller's repeated reads of one transcript, each fed the result of the one before. */
  function Chain(vs: seq<Reading>, limit: int, decode: Bytes -> Option<Line>): (Option<seq<Entry>>, nat) {
    if vs == [] then (None, 0)
    else
      var (prev, offset) := Chain(vs[..|vs| - 1], limit, decode);
      ReadIncremental(vs[|vs| - 1], limit, prev, offset, decode)
  }

  // ----- plan cards over several readings -----

  /** All entries of a transcript, the card at its first slug included. */
  function AllEntries(ls: seq<Line>): seq<Entry> { WithSlugCard([], ls) }

  /** What the lines `ls` add to entries that show a plan, or none. */
  function Added(planned: bool, ls: seq<Line>): seq<Entry> {
    if planned then EmitAll(ls) else AllEntries(ls)
  }

  /** The card at the first slug of `ls` is no longer due, as the plan tool is called in `more`. */
  predicate Outdated(ls: seq<Line>, more: seq<Line>) {
    FirstSlug(ls) < |ls| && !CallsExitPlan(ls) && CallsExitPlan(more)
  }

  lemma {:induction false} PlansShown(es: seq<Entry>)
    ensures ShowsPlan(es) <==> Plans(es) != []
  {
    if es != [] {
      var n := |es| - 1;
      PlansShown(es[..n]);
      ShowsPlanParts(es[..n], [es[n]]);
      assert es == es[..n] + [es[n]];
    }
  }

  lemma ShowsPlanParts(a: seq<Entry>, b: seq<Entry>)
    ensures ShowsPlan(a + b) <==> ShowsPlan(a) || ShowsPlan(b)
  {
    assert forall e <- a :: e in a + b;
    assert forall e <- b :: e in a + b;
  }

  lemma CallsParts(a: seq<Line>, b: seq<Line>)
    ensures CallsExitPlan(a + b) <==> CallsExitPlan(a) || CallsExitPlan(b)
  {
    assert forall l <- a :: l in a + b;
    assert forall l <- b :: l in a + b;
  }

  lemma EmitShowsPlan(l: Line)
    ensures ShowsPlan(Emit(l)) <==> CallsExitPlan([l])
  {
    if l.AssistantLine? && l.exitPlan {
      assert Emit(l)[|Emit(l)| - 1].role.PlanSaved?;
      assert l in [l];
    }
  }

  /** The cards of the plan tool are exactly its calls. */
  lemma {:induction false} CallsAreShown(ls: seq<Line>)
    ensures ShowsPlan(EmitAll(ls)) <==> CallsExitPlan(ls)
  {
    if ls != [] {
      hide Emit, ShowsPlan, CallsExitPlan;
      var n := |ls| - 1;
      CallsAreShown(ls[..n]);
      ShowsPlanParts(EmitAll(ls[..n]), Emit(ls[n]));
      EmitShowsPlan(ls[n]);
      CallsParts(ls[..n], [ls[n]]);
      assert ls == ls[..n] + [ls[n]];
    }
  }

  lemma {:induction false} FirstSlugParts(a: seq<Line>, b: seq<Line>)
    ensures FirstSlug(a + b) == if FirstSlug(a) < |a| then FirstSlug(a) else |a| + FirstSlug(b)
  {
    if a == [] {
      assert a + b == b;
    } else {
      assert (a + b)[1..] == a[1..] + b;
      FirstSlugParts(a[1..], b);
    }
  }

  lemma InsertBehind(prev: seq<Entry>, es: seq<Entry>, at: nat, e: Entry)
    requires at <= |es|
    ensures Inserted(prev + es, |prev| + at, e) == prev + Inserted(es, at, e)
  {
  }

  lemma EmitPrefix(ls: seq<Line>, k: nat)
    requires k <= |ls|
    ensures |EmitAll(ls[..k])| <= |EmitAll(ls)|
  {
    hide Emit, EmitAll;
    EmitAppend(ls[..k], ls[k..]);
    assert ls == ls[..k] + ls[k..];
  }

  /** The card at the first slug, when it is due. */
  lemma CardIs(ls: seq<Line>)
    requires FirstSlug(ls) < |ls| && !CallsExitPlan(ls)
    ensures var k := FirstSlug(ls);
            var card := Entry(PlanSaved, "", ls[k].timestamp, false);
            && |EmitAll(ls[..k + 1])| <= |EmitAll(ls)|
            && AllEntries(ls) == Inserted(EmitAll(ls), |EmitAll(ls[..k + 1])|, card)
  {
    hide EmitAll, FirstSlug, CallsExitPlan, ShowsPlan;
    EmitPrefix(ls, FirstSlug(ls) + 1);
    CallsAreShown(ls);
    assert [] + EmitAll(ls) == EmitAll(ls);
  }

  lemma NoCardIs(ls: seq<Line>)
    requires FirstSlug(ls) == |ls| || CallsExitPlan(ls)
    ensures AllEntries(ls) == EmitAll(ls)
  {
    hide CallsExitPlan, FirstSlug, EmitAll;
    assert [] + EmitAll(ls) == EmitAll(ls);
  }

  /** Lines add the same entries after any others that show no plan, and no card after ones that do. */
  lemma SlugCardAdds(prev: seq<Entry>, ls: seq<Line>)
    ensures WithSlugCard(prev, ls) == prev + Added(ShowsPlan(prev), ls)
  {
    hide EmitAll, FirstSlug, CallsExitPlan, ShowsPlan, Inserted;
    var es, k := EmitAll(ls), FirstSlug(ls);
    ShowsPlanParts(prev, es);
    CallsAreShown(ls);
    assert [] + es == es;
    if k < |ls| && !CallsExitPlan(ls) && !ShowsPlan(prev) {
      EmitPrefix(ls, k + 1);
      InsertBehind(prev, es, |EmitAll(ls[..k + 1])|, Entry(PlanSaved, "", ls[k].timestamp, false));
    }
  }

  /** A plan is shown once there is a slug or a call of the plan tool. */
  lemma PlanKnown(ls: seq<Line>)
    ensures ShowsPlan(AllEntries(ls)) <==> FirstSlug(ls) < |ls| || CallsExitPlan(ls)
  {
    hide EmitAll, FirstSlug, CallsExitPlan;
    CallsAreShown(ls);
    assert [] + EmitAll(ls) == EmitAll(ls);
    if FirstSlug(ls) < |ls| && !CallsExitPlan(ls) {
      var card := Entry(PlanSaved, "", ls[FirstSlug(ls)].timestamp, false);
      assert card in AllEntries(ls);
    }
  }

  /** What follows lines without a plan adds what it would alone. */
  lemma UnplannedParts(a: seq<Line>, b: seq<Line>)
    requires FirstSlug(a) == |a| && !CallsExitPlan(a)
    ensures AllEntries(a + b) == EmitAll(a) + AllEntries(b)
  {
    hide EmitAll, FirstSlug, CallsExitPlan, AllEntries, Inserted;
    EmitAppend(a, b);
    CallsParts(a, b);
    FirstSlugParts(a, b);
    var k := FirstSlug(b);
    if k < |b| && !CallsExitPlan(b) {
      CardIs(a + b);
      CardIs(b);
      assert (a + b)[..|a| + k + 1] == a + b[..k + 1];
      EmitAppend(a, b[..k + 1]);
      InsertBehind(EmitAll(a), EmitAll(b), |EmitAll(b[..k + 1])|, Entry(PlanSaved, "", b[k].timestamp, false));
    } else {
      NoCardIs(a + b);
      NoCardIs(b);
    }
  }

  /** What follows a slug adds its entries, while the plan tool is not called. */
  lemma CardParts(a: seq<Line>, b: seq<Line>)
    requires FirstSlug(a) < |a| && !CallsExitPlan(a) && !CallsExitPlan(b)
    ensures AllEntries(a + b) == AllEntries(a) + EmitAll(b)
  {
    hide EmitAll, FirstSlug, CallsExitPlan, AllEntries, Inserted;
    EmitAppend(a, b);
    CallsParts(a, b);
    FirstSlugParts(a, b);
    var k := FirstSlug(a);
    CardIs(a);
    CardIs(a + b);
    assert (a + b)[..k + 1] == a[..k + 1];
    InsertBefore(EmitAll(a), EmitAll(b), |EmitAll(a[..k + 1])|, Entry(PlanSaved, "", a[k].timestamp, false));
  }

  lemma InsertBefore(es: seq<Entry>, more: seq<Entry>, at: nat, e: Entry)
    requires at <= |es|
    ensures Inserted(es + more, at, e) == Inserted(es, at, e) + more
  {
  }

  /** All entries of a grown transcript, unless a card shown before is outdated. */
  lemma AllEntriesParts(a: seq<Line>, b: seq<Line>)
    requires !Outdated(a, b)
    ensures AllEntries(a + b) == AllEntries(a) + Added(ShowsPlan(AllEntries(a)), b)
  {
    hide EmitAll, FirstSlug, CallsExitPlan, ShowsPlan, AllEntries;
    PlanKnown(a);
    if CallsExitPlan(a) {
      CallsParts(a, b);
      NoCardIs(a);
      NoCardIs(a + b);
      EmitAppend(a, b);
    } else if FirstSlug(a) < |a| {
      CardParts(a, b);
    } else {
      UnplannedParts(a, b);
      NoCardIs(a);
    }
  }

  /** A transcript that shows a slug and never calls the plan tool has one card, right behind the entries
      of the first line with a slug; any other has the cards of its calls. */
  lemma CardPlaced(a: seq<Line>, l: Line, b: seq<Line>)
    requires (forall x <- a :: x.slug == "") && l.slug != ""
    ensures var ls := (a + [l]) + b;
            AllEntries(ls) == if exists x <- ls :: x.AssistantLine? && x.exitPlan then EmitAll(ls)
                              else (EmitAll(a + [l]) + [Entry(PlanSaved, "", l.timestamp, false)]) + EmitAll(b)
  {
    hide EmitAll, CallsExitPlan, AllEntries;
    var ls := (a + [l]) + b;
    FirstSlugAt(a, l, b);
    if CallsExitPlan(ls) {
      NoCardIs(ls);
    } else {
      CardIs(ls);
      assert ls[..|a| + 1] == a + [l] && ls[|a|] == l;
      EmitAppend(a + [l], b);
      Parts(EmitAll(a + [l]), EmitAll(b));
    }
    assert CallsExitPlan(ls) <==> exists x <- ls :: x.AssistantLine? && x.exitPlan by { CallsMeans(ls); }
  }

  lemma CallsMeans(ls: seq<Line>)
    ensures CallsExitPlan(ls) <==> exists x <- ls :: x.AssistantLine? && x.exitPlan
  {
  }

  lemma {:induction false} FirstSlugAt(a: seq<Line>, l: Line, b: seq<Line>)
    requires (forall x <- a :: x.slug == "") && l.slug != ""
    ensures FirstSlug((a + [l]) + b) == |a|
  {
    var ls := (a + [l]) + b;
    if a != [] {
      assert ls[0] == a[0] && a[0] in a && ls[1..] == (a[1..] + [l]) + b;
      assert forall x <- a[1..] :: x in a;
      FirstSlugAt(a[1..], l, b);
    }
  }

  lemma {:induction false} NoSlugAt(ls: seq<Line>)
    requires forall x <- ls :: x.slug == ""
    ensures FirstSlug(ls) == |ls|
  {
    if ls != [] {
      assert ls[0] in ls && forall x <- ls[1..] :: x in ls;
      NoSlugAt(ls[1..]);
    }
  }

  /** ... and without a slug there are only the cards of the calls. */
  lemma NoSlugNoCard(ls: seq<Line>)
    requires forall x <- ls :: x.slug == ""
    ensures AllEntries(ls) == EmitAll(ls)
  {
    hide AllEntries;
    NoSlugAt(ls);
    NoCardIs(ls);
  }

  // ----- chains of readings -----

  predicate LateHarmless(u: Reading, limit: int, decode: Bytes -> Option<Line>) {
    Harmless(AllEntries(Entries(u.All(), decode)), EmitAll(Entries(u.late, decode)), limit)
  }

  /** The transcript grew by whole lines, and a card shown at its first slug stays. */
  predicate GrownPlain(u: Reading, v: Reading, decode: Bytes -> Option<Line>) {
    Grown(u, v) && !Outdated(Entries(u.All(), decode), Entries(v.All()[|u.All()|..], decode))
  }

  /** The file shrank, was left alone, or grew by whole lines, those appended while it was being read
      doing no harm when they are read again. */
  predicate Evolves(u: Reading, v: Reading, limit: int, decode: Bytes -> Option<Line>) {
    || |v.at| < |u.at|
    || (v == u && u.late == [])
    || (GrownPlain(u, v, decode) && LateHarmless(u, limit, decode))
  }

  lemma FullReadShowsAll(v: Reading, limit: int, decode: Bytes -> Option<Line>)
    ensures FullRead(v, limit, decode) == ShowAll(AllEntries(Entries(v.All(), decode)), limit)
  {
    var es := AllEntries(Entries(v.All(), decode));
    assert From(v.All(), 0) == v.All();
    assert [] + Mark(es, false) == Mark(es, false);
  }

  function Untag(es: seq<Entry>): (r: seq<Entry>)
    ensures |r| == |es| && forall i | 0 <= i < |es| :: r[i] == es[i].(notification := false)
  {
    seq(|es|, i requires 0 <= i < |es| => es[i].(notification := false))
  }

  lemma {:induction false} MarkOnlyTags(es: seq<Entry>, p: bool)
    ensures Untag(Mark(es, p)) == Untag(es)
  {
    hide MarkOne, Untag, Pending;
    if es != [] {
      var n := |es| - 1;
      MarkOnlyTags(es[..n], p);
      OnlyTag(es[n], Pending(es[..n], p));
      UntagMore(Mark(es[..n], p), MarkOne(es[n], Pending(es[..n], p)));
      UntagMore(es[..n], es[n]);
      assert es == es[..n] + [es[n]];
    } else {
      assert Mark(es, p) == es;
    }
  }

  lemma UntagMore(es: seq<Entry>, e: Entry)
    ensures Untag(es + [e]) == Untag(es) + [e.(notification := false)]
  {
  }

  lemma OnlyTag(e: Entry, p: bool)
    ensures MarkOne(e, p).(notification := false) == e.(notification := false)
  {
  }

  /** A full read without a limit shows every entry of the transcript in order; with a limit, the last
      ones, behind the plan cards among the rest. */
  lemma FullReadTells(v: Reading, limit: int, decode: Bytes -> Option<Line>)
    ensures var es := AllEntries(Entries(v.All(), decode));
            var all := FullRead(v, 0, decode);
            && Untag(all) == Untag(es)
            && FullRead(v, limit, decode) ==
                 if 0 < limit < |es| then Plans(all[..|es| - limit]) + all[|es| - limit..] else all
  {
    hide AllEntries, Entries, FullRead, Mark, Plans;
    FullReadShowsAll(v, 0, decode);
    FullReadShowsAll(v, limit, decode);
    MarkOnlyTags(AllEntries(Entries(v.All(), decode)), false);
  }

  /** What is shown shows a plan exactly when there is one. */
  lemma ShowsPlanShown(es: seq<Entry>, limit: int)
    ensures ShowsPlan(ShowAll(es, limit)) <==> ShowsPlan(es)
  {
    PlansShown(es);
    PlansShown(ShowAll(es, limit));
    PlansAlwaysShown(es, limit);
  }

  /** What a resumed read shows, in terms of what was shown before. */
  lemma ResumedRead(v: Reading, offset: nat, limit: int, prev: Option<seq<Entry>>, decode: Bytes -> Option<Line>)
    requires 0 < offset < |v.at|
    ensures var p, ls := Shown(prev), Entries(From(v.All(), offset), decode);
            Shown(ReadIncremental(v, limit, prev, offset, decode).0) == AppendEntries(p, Added(ShowsPlan(p), ls), limit)
  {
    hide Entries, Cap, MarkNew, From, WithSlugCard, Added, ShowsPlan;
    SlugCardAdds(Shown(prev), Entries(From(v.All(), offset), decode));
  }

  /** An unchanged file shows again what it showed. */
  lemma UnchangedRead(v: Reading, limit: int, prev: Option<seq<Entry>>, decode: Bytes -> Option<Line>)
    requires v.at != [] && v.late == []
    ensures Shown(ReadIncremental(v, limit, prev, |v.at|, decode).0) == Shown(prev)
  {
    if prev.None? {
      assert From(v.All(), |v.at|) == [];
      NothingScannedShows(limit);
    }
  }

  lemma NothingScannedShows(limit: int)
    ensures Scan([], [], limit) == []
  {
  }

  lemma RestartedRead(v: Reading, offset: nat, limit: int, prev: Option<seq<Entry>>, decode: Bytes -> Option<Line>)
    requires offset > |v.at| || offset == 0
    ensures Shown(ReadIncremental(v, limit, prev, offset, decode).0) == FullRead(v, limit, decode)
  {
  }

  /** The lines after some that are read again. */
  lemma AddedAgain(a: seq<Line>, l: seq<Line>, r: seq<Line>)
    ensures var planned := ShowsPlan(AllEntries(a + l));
            Added(planned, l + r) == EmitAll(l) + Added(planned, r)
  {
    hide EmitAll, FirstSlug, CallsExitPlan, ShowsPlan, WithSlugCard;
    EmitAppend(l, r);
    PlanKnown(a + l);
    CallsParts(a, l);
    FirstSlugParts(a, l);
    PlanKnown(l);
    if !ShowsPlan(AllEntries(a + l)) { UnplannedParts(l, r); }
  }

  /** A reading of a grown transcript appends, to what was shown, the entries of the lines appended
      during the last reading once more and then the new ones. */
  lemma GrownRead(u: Reading, v: Reading, limit: int, prev: Option<seq<Entry>>, decode: Bytes -> Option<Line>)
    requires u.at != [] && Grown(u, v) && Shown(prev) == FullRead(u, limit, decode)
    ensures |u.All()| <= |v.All()|
    ensures var known, l := AllEntries(Entries(u.All(), decode)), EmitAll(Entries(u.late, decode));
            var r := Entries(v.All()[|u.All()|..], decode);
            && Shown(ReadIncremental(v, limit, prev, |u.at|, decode).0)
            == AppendEntries(ShowAll(known, limit), l + Added(ShowsPlan(known), r), limit)
            && FullRead(v, limit, decode) == ShowAll(AllEntries(Entries(u.All(), decode) + r), limit)
  {
    hide ReadIncremental, EmitAll, Entries, FullRead, ShowAll, AppendEntries, Grown, From, AllEntries, Added, ShowsPlan;
    GrownIsLonger(u, v);
    GrownEntries(u, v, decode);
    FullReadShowsAll(u, limit, decode);
    FullReadShowsAll(v, limit, decode);
    ResumedRead(v, |u.at|, limit, prev, decode);
    ShowsPlanShown(AllEntries(Entries(u.All(), decode)), limit);
    AddedAgain(Entries(u.at, decode), Entries(u.late, decode), Entries(v.All()[|u.All()|..], decode));
  }

  lemma GrownAgrees(u: Reading, v: Reading, limit: int, prev: Option<seq<Entry>>, decode: Bytes -> Option<Line>)
    requires u.at != [] && GrownPlain(u, v, decode) && LateHarmless(u, limit, decode)
    requires Shown(prev) == FullRead(u, limit, decode)
    ensures Shown(ReadIncremental(v, limit, prev, |u.at|, decode).0) == FullRead(v, limit, decode)
  {
    hide ReadIncremental, FullRead, Entries, ShowAll, AppendEntries, Grown, Harmless, Outdated;
    hide EmitAll, AllEntries, Added;
    GrownRead(u, v, limit, prev, decode);
    var known, r := Entries(u.All(), decode), Entries(v.All()[|u.All()|..], decode);
    AllEntriesParts(known, r);
    HarmlessAgrees(AllEntries(known), EmitAll(Entries(u.late, decode)), Added(ShowsPlan(AllEntries(known)), r), limit);
  }

  lemma ReadStep(u: Reading, v: Reading, limit: int, prev: Option<seq<Entry>>, decode: Bytes -> Option<Line>)
    requires Evolves(u, v, limit, decode) && Shown(prev) == FullRead(u, limit, decode)
    ensures Shown(ReadIncremental(v, limit, prev, |u.at|, decode).0) == FullRead(v, limit, decode)
  {
    hide ReadIncremental, FullRead, Entries, EmitAll, GrownPlain, LateHarmless;
    if |v.at| < |u.at| || u.at == [] {
      RestartedRead(v, |u.at|, limit, prev, decode);
    } else if v == u && u.late == [] {
      UnchangedRead(v, limit, prev, decode);
    } else {
      GrownAgrees(u, v, limit, prev, decode);
    }
  }

  lemma ChainOffset(vs: seq<Reading>, limit: int, decode: Bytes -> Option<Line>)
    requires vs != []
    ensures Chain(vs, limit, decode).1 == |vs[|vs| - 1].at|
  {
    hide Entries, Scan, From;
  }

  /** Any chain of incremental reads over growing, shrinking and unchanged transcripts ends with what
      one full read shows. */
  lemma {:induction false} ChainAgrees(vs: seq<Reading>, limit: int, decode: Bytes -> Option<Line>)
    requires vs != [] && forall i | 0 < i < |vs| :: Evolves(vs[i - 1], vs[i], limit, decode)
    ensures Shown(Chain(vs, limit, decode).0) == FullRead(vs[|vs| - 1], limit, decode)
    ensures Chain(vs, limit, decode).1 == |vs[|vs| - 1].at|
  {
    hide ReadIncremental, FullRead, Evolves, Entries;
    var n := |vs| - 1;
    ChainOffset(vs, limit, decode);
    if n > 0 {
      ChainAgrees(vs[..n], limit, decode);
      assert Evolves(vs[n - 1], vs[n], limit, decode);
      ReadStep(vs[n - 1], vs[n], limit, Chain(vs[..n], limit, decode).0, decode);
    } else {
      assert vs[..0] == [];
      RestartedRead(vs[0], 0, limit, None, decode);
    }
  }

  /** The next reading shows what a full one does. */
  predicate NextAgrees(u: Reading, v: Reading, limit: int, decode: Bytes -> Option<Line>) {
    var (prev, offset) := Chain([u], limit, decode);
    Shown(ReadIncremental(v, limit, prev, offset, decode).0) == FullRead(v, limit, decode)
  }

  /** What the reading after one of `u` shows, and a full one. */
  lemma NextShows(u: Reading, v: Reading, limit: int, decode: Bytes -> Option<Line>)
    requires u.at != [] && Grown(u, v)
    ensures |u.All()| <= |v.All()|
    ensures var known, l := AllEntries(Entries(u.All(), decode)), EmitAll(Entries(u.late, decode));
            var r := Entries(v.All()[|u.All()|..], decode);
            NextAgrees(u, v, limit, decode) <==>
              AppendEntries(ShowAll(known, limit), l + Added(ShowsPlan(known), r), limit)
              == ShowAll(AllEntries(Entries(u.All(), decode) + r), limit)
  {
    hide ReadIncremental, EmitAll, Entries, FullRead, ShowAll, AppendEntries, Grown, AllEntries, Added, ShowsPlan;
    var prev := Chain([u], limit, decode).0;
    ChainOffset([u], limit, decode);
    assert [u][..0] == [];
    RestartedRead(u, 0, limit, None, decode);
    GrownRead(u, v, limit, prev, decode);
  }

  /** ... and without an outdated card. */
  lemma NextShowsPlain(u: Reading, v: Reading, limit: int, decode: Bytes -> Option<Line>)
    requires u.at != [] && GrownPlain(u, v, decode)
    ensures |u.All()| <= |v.All()|
    ensures var known, l := AllEntries(Entries(u.All(), decode)), EmitAll(Entries(u.late, decode));
            var r := Added(ShowsPlan(known), Entries(v.All()[|u.All()|..], decode));
            NextAgrees(u, v, limit, decode) <==>
              AppendEntries(ShowAll(known, limit), l + r, limit) == ShowAll(known + r, limit)
  {
    hide NextAgrees, EmitAll, Entries, ShowAll, AppendEntries, Grown, AllEntries, Added, ShowsPlan, Outdated;
    NextShows(u, v, limit, decode);
    AllEntriesParts(Entries(u.All(), decode), Entries(v.All()[|u.All()|..], decode));
  }

  /** One whole line, without a slug, that shows an assistant message and nothing else. */
  predicate IsAnswer(w: Bytes, decode: Bytes -> Option<Line>) {
    var ls := Entries(w, decode);
    && w != [] && Aligned(w)
    && |ls| == 1 && ls[0].slug == ""
    && |Emit(ls[0])| == 1 && Emit(ls[0])[0].role.Assistant?
  }

  /** The transcript as it is once more lines, or none, follow the late ones. */
  lemma Later(u: Reading, w: Bytes, decode: Bytes -> Option<Line>)
    requires Aligned(u.at) && Aligned(u.All()) && u.late + w != [] && !CallsExitPlan(Entries(w, decode))
    ensures var v := Reading(u.All() + w, []);
            GrownPlain(u, v, decode) && |u.All()| <= |v.All()| && v.All()[|u.All()|..] == w
  {
    hide Entries, CallsExitPlan;
    var v := Reading(u.All() + w, []);
    assert v.All() == v.at && |v.at| == |u.at| + |u.late + w| && u.All() <= v.at;
    assert v.All()[|u.All()|..] == w;
  }

  lemma AnswerEmits(w: Bytes, planned: bool, decode: Bytes -> Option<Line>) returns (e: Entry)
    requires IsAnswer(w, decode)
    ensures Added(planned, Entries(w, decode)) == [e] && e.role.Assistant? && !e.notification
    ensures w != [] && !CallsExitPlan(Entries(w, decode))
  {
    hide Entries;
    var ls := Entries(w, decode);
    e := Emit(ls[0])[0];
    EmitOne([], ls[0], []);
    assert [] + ls == ls && ls == [ls[0]] && [] + EmitAll(ls) == EmitAll(ls);
  }

  lemma NothingAdded(planned: bool, decode: Bytes -> Option<Line>)
    ensures Added(planned, Entries([], decode)) == [] && !CallsExitPlan(Entries([], decode))
    ensures EmitAll(Entries([], decode)) == []
  {
  }

  /** Lines appended during a reading are read again by the next one. At every limit, the next reading
      shows what a full one does, however the transcript goes on, exactly when those lines do no harm. */
  lemma LateLinesExact(u: Reading, limit: int, decode: Bytes -> Option<Line>, w: Bytes)
    requires u.at != [] && Aligned(u.at) && Aligned(u.All()) && IsAnswer(w, decode)
    ensures (forall v | GrownPlain(u, v, decode) :: NextAgrees(u, v, limit, decode)) <==> LateHarmless(u, limit, decode)
  {
    hide NextAgrees, GrownPlain, IsAnswer, Entries, ShowAll, AppendEntries, Harmless;
    hide EmitAll, AllEntries, Added, ShowsPlan;
    var known, l := AllEntries(Entries(u.All(), decode)), EmitAll(Entries(u.late, decode));
    var planned := ShowsPlan(known);
    if Harmless(known, l, limit) {
      forall v | GrownPlain(u, v, decode) ensures NextAgrees(u, v, limit, decode) {
        NextShowsPlain(u, v, limit, decode);
        HarmlessAgrees(known, l, Added(planned, Entries(v.All()[|u.All()|..], decode)), limit);
      }
    } else {
      var e := AnswerEmits(w, planned, decode);
      HarmShows(known, l, e, limit);
      Later(u, w, decode);
      NextShowsPlain(u, Reading(u.All() + w, []), limit, decode);
      NothingAdded(planned, decode);
      if u.late != [] {
        Later(u, [], decode);
        NextShowsPlain(u, Reading(u.All() + [], []), limit, decode);
      }
    }
  }

  /** A call of the plan tool after a card was shown at the first slug leaves both on show, where a
      full read shows one. */
  lemma OutdatedCardStays(u: Reading, v: Reading, limit: int, decode: Bytes -> Option<Line>)
    requires u.at != [] && Grown(u, v) && !GrownPlain(u, v, decode)
    ensures !NextAgrees(u, v, limit, decode)
  {
    hide NextAgrees, EmitAll, Entries, ShowAll, AppendEntries, Grown, ShowsPlan, FirstSlug, CallsExitPlan;
    NextShows(u, v, limit, decode);
    var ls, l := Entries(u.All(), decode), EmitAll(Entries(u.late, decode));
    var more := Entries(v.All()[|u.All()|..], decode);
    PlanKnown(ls);
    PlansAppended(AllEntries(ls), l + EmitAll(more), limit);
    PlansAppend(l, EmitAll(more));
    PlansAlwaysShown(AllEntries(ls + more), limit);
    OutdatedEntries(ls, more);
  }

  /** The plans on show after an append. */
  lemma PlansAppended(x: seq<Entry>, b: seq<Entry>, limit: int)
    ensures Plans(AppendEntries(ShowAll(x, limit), b, limit)) == Plans(x) + Plans(b)
  {
    hide Plans, Mark, Cap, EndsInTask, ShowAll, MarkNew;
    MarkNewIs(x, b, limit);
    CapKeepsPlans(ShowAll(x, limit) + Mark(b, EndsInTask(x)), limit);
    PlansAppend(ShowAll(x, limit), Mark(b, EndsInTask(x)));
    PlansAlwaysShown(x, limit);
    MarkKeepsPlans(b, EndsInTask(x));
  }

  lemma OutdatedEntries(ls: seq<Line>, more: seq<Line>)
    requires Outdated(ls, more)
    ensures Plans(AllEntries(ls)) != [] && Plans(AllEntries(ls + more)) == Plans(EmitAll(more))
  {
    hide EmitAll, ShowsPlan, FirstSlug, CallsExitPlan, Plans;
    PlanKnown(ls);
    PlansShown(AllEntries(ls));
    CallsParts(ls, more);
    CallsAreShown(ls);
    PlansShown(EmitAll(ls));
    EmitAppend(ls, more);
    PlansAppend(EmitAll(ls), EmitAll(more));
    NoCardIs(ls + more);
  }

  // ----- the reading loop -----

  lemma {:induction false} FirstSlugGrows(ls: seq<Line>, l: Line)
    ensures FirstSlug(ls + [l]) ==
              if FirstSlug(ls) < |ls| then FirstSlug(ls) else if l.slug != "" then |ls| else |ls| + 1
  {
    if ls != [] {
      assert (ls + [l])[1..] == ls[1..] + [l];
      FirstSlugGrows(ls[1..], l);
    }
  }

  /** What the loop knows about plan cards after the lines `ls`. */
  ghost predicate CardState(ls: seq<Line>, prevLen: nat, slugIdx: int, slugTime: string, exitPlan: bool) {
    var k := FirstSlug(ls);
    && (exitPlan <==> CallsExitPlan(ls))
    && (slugIdx >= 0 <==> k < |ls|)
    && (k < |ls| ==> slugIdx == prevLen + |EmitAll(ls[..k + 1])| && slugTime == ls[k].timestamp)
  }

  /** The entries of one decoded line, and whether it calls the plan tool. */
  method AppendLine(all0: seq<Entry>, l: Line) returns (all: seq<Entry>, plan: bool)
    ensures all == all0 + Emit(l) && plan == (l.AssistantLine? && l.exitPlan)
  {
    all, plan := all0, false;
    match l {
      case UserLine(text, ts, _) =>
        if text.Some? { all := all + [Entry(Human, text.value, ts, false)]; }
      case AssistantLine(text, exitPlan, ts, _) =>
        if text.Some? { all := all + [Entry(Assistant, text.value, ts, false)]; }
        if exitPlan {
          all := all + [Entry(PlanSaved, "", ts, false)];
          plan := true;
        }
      case OtherLine(_, _) =>
    }
  }

  /** One decoded line: entries are appended, the first slug remembered. */
  method TakeLine(all0: seq<Entry>, l: Line, ghost ls: seq<Line>, ghost start: seq<Entry>,
                  slugIdx0: int, slugTime0: string, exitPlan0: bool)
    returns (all: seq<Entry>, slugIdx: int, slugTime: string, exitPlan: bool)
    requires all0 == start + EmitAll(ls) && CardState(ls, |start|, slugIdx0, slugTime0, exitPlan0)
    ensures all == start + EmitAll(ls + [l]) && CardState(ls + [l], |start|, slugIdx, slugTime, exitPlan)
  {
    hide Emit, EmitAll, CardState;
    slugIdx, slugTime, exitPlan := slugIdx0, slugTime0, exitPlan0;
    var plan;
    all, plan := AppendLine(all0, l);
    if plan { exitPlan := true; }
    EmitOne(ls, l, start);
    if l.slug != "" && slugIdx < 0 {
      slugIdx := |all|;
      slugTime := l.timestamp;
    }
    CardStep(ls, l, start, slugIdx0, slugTime0, exitPlan0);
  }

  lemma EmitOne(ls: seq<Line>, l: Line, start: seq<Entry>)
    ensures start + EmitAll(ls + [l]) == start + EmitAll(ls) + Emit(l)
  {
    assert (ls + [l])[..|ls|] == ls;
    Regroup(start, EmitAll(ls), Emit(l));
  }

  lemma CardStep(ls: seq<Line>, l: Line, start: seq<Entry>, slugIdx: int, slugTime: string, exitPlan: bool)
    requires CardState(ls, |start|, slugIdx, slugTime, exitPlan)
    ensures var found := l.slug != "" && slugIdx < 0;
            CardState(ls + [l], |start|,
                      if found then |start + EmitAll(ls + [l])| else slugIdx,
                      if found then l.timestamp else slugTime,
                      exitPlan || (l.AssistantLine? && l.exitPlan))
  {
    hide EmitAll, FirstSlug;
    FirstSlugGrows(ls, l);
    assert (ls + [l])[..|ls| + 1] == ls + [l];
    var k := FirstSlug(ls);
    if k < |ls| { assert (ls + [l])[..k + 1] == ls[..k + 1]; }
  }

  lemma CardStateStart(prevLen: nat)
    ensures CardState([], prevLen, -1, "", false)
  {
  }

  /** The scanning loop over the new lines. */
  method ScanLines(raw: seq<Bytes>, start: seq<Entry>, decode: Bytes -> Option<Line>)
    returns (all: seq<Entry>, slugIdx: int, slugTime: string, exitPlan: bool)
    ensures all == start + EmitAll(Decode(raw, decode))
    ensures CardState(Decode(raw, decode), |start|, slugIdx, slugTime, exitPlan)
  {
    hide CardState, EmitAll;
    all, slugIdx, slugTime, exitPlan := start, -1, "", false;
    CardStateStart(|start|);
    EmitNothing(start);
    var i := 0;
    while i < |raw|
      invariant i <= |raw|
      invariant all == start + EmitAll(Decode(raw[..i], decode))
      invariant CardState(Decode(raw[..i], decode), |start|, slugIdx, slugTime, exitPlan)
    {
      DecodeOneMore(raw, i, decode);
      ghost var ls := Decode(raw[..i], decode);
      assert ls + [] == ls;
      i := i + 1;
      if raw[i - 1] == [] { continue; }
      var l := decode(raw[i - 1]);
      if l.None? { continue; }
      all, slugIdx, slugTime, exitPlan := TakeLine(all, l.value, ls, start, slugIdx, slugTime, exitPlan);
    }
    assert raw[..i] == raw;
  }

  lemma EmitNothing(start: seq<Entry>)
    ensures start + EmitAll([]) == start
  {
  }

  /** After the scan: the fallback plan card, the tags and the cap. */
  method Finish(all0: seq<Entry>, ghost start: seq<Entry>, prevLen: nat, ghost ls: seq<Line>,
                slugIdx: int, slugTime: string, exitPlan: bool, limit: int)
    returns (all: seq<Entry>)
    requires prevLen == |start| && all0 == start + EmitAll(ls)
    requires CardState(ls, prevLen, slugIdx, slugTime, exitPlan)
    ensures all == Scan(start, ls, limit)
  {
    all := all0;
    if slugIdx >= 0 && !exitPlan && !ShowsPlan(all) {
      var at := if slugIdx > |all| then |all| else slugIdx;
      all := all[..at] + [Entry(PlanSaved, "", slugTime, false)] + all[at..];
    }
    assert all == WithSlugCard(start, ls);
    all := MarkAndCap(all, start, prevLen, limit);
  }

  /** Tags the new entries and the last one shown before, then caps. */
  method MarkAndCap(all0: seq<Entry>, ghost start: seq<Entry>, prevLen: nat, limit: int) returns (all: seq<Entry>)
    requires prevLen == |start| <= |all0|
    ensures all == Cap(MarkNew(start, all0), limit)
  {
    hide MarkNew, Plans;
    all := MarkTail(all0, start, prevLen);
    if limit > 0 && |all| > limit {
      var rescued := RescuePlans(all[..|all| - limit]);
      all := rescued + all[|all| - limit..];
    }
  }

  /** The tags of the new entries and of the entry before them. */
  method MarkTail(all0: seq<Entry>, ghost start: seq<Entry>, prevLen: nat) returns (all: seq<Entry>)
    requires prevLen == |start| <= |all0|
    ensures all == MarkNew(start, all0)
  {
    hide Mark;
    var notifStart := if prevLen > 0 then prevLen - 1 else 0;
    var marked := new Entry[|all0|](j requires 0 <= j < |all0| => all0[j]);
    assert marked[..] == all0;
    assert marked[..notifStart] == all0[..notifStart] && marked[notifStart..] == all0[notifStart..];
    MarkNotifications(marked, notifStart);
    all := marked[..];
  }

  /** The incremental reader. */
  method ReadConversationIncremental(v: Reading, limit: int, prev: Option<seq<Entry>>, prevOffset: int,
                                     decode: Bytes -> Option<Line>)
    returns (shown: Option<seq<Entry>>, offset: nat)
    ensures (shown, offset) == ReadIncremental(v, limit, prev, prevOffset, decode)
  {
    hide Scan, CardState, EmitAll;
    var known, from := prev, prevOffset;
    var fileSize := |v.at|;
    if from > fileSize || from < 0 {
      from := 0;
      known := None;
    }
    if from > 0 && from == fileSize && known.Some? { return known, from; }
    var start: seq<Entry> := [];
    if from > 0 && known.Some? { start := known.value; }
    var all, slugIdx, slugTime, exitPlan := ScanLines(LinesOf(From(v.All(), from)), start, decode);
    all := Finish(all, start, |start|, Entries(From(v.All(), from), decode), slugIdx, slugTime, exitPlan, limit);
    shown := if all == [] && !(from > 0 && known.Some?) then None else Some(all);
    offset := fileSize;
  }

  /** The plan entries among those about to be dropped. */
  method RescuePlans(dropped: seq<Entry>) returns (rescued: seq<Entry>)
    ensures rescued == Plans(dropped)
  {
    rescued := [];
    for i := 0 to |dropped|
      invariant rescued == Plans(dropped[..i])
    {
      assert dropped[..i + 1][..i] == dropped[..i];
      if dropped[i].role.PlanSaved? { rescued := rescued + [dropped[i]]; }
    }
    assert dropped[..|dropped|] == dropped;
  }
}
