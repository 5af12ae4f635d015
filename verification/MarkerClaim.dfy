/** Claiming a worktree: dashboard goroutines and hook processes race to create one marker
    file by exclusive create, write and read-back, as separate steps. */
module MarkerClaim {
  import opened Options
  import opened Text

  type Id = nat

  /** The dashboard opens at once and cleans up after a failed write; a hook looks first and
      leaves a failed write behind. */
  datatype Kind = Dashboard | Hook

  datatype Pc = Start | Opening | Writing | Cleanup | ReadBack | Done(claimed: bool)

  datatype Claimer = Claimer(kind: Kind, sid: string, pc: Pc)

  /** `creator` is history: whose exclusive create made the present marker.  `live` are the
      sessions with a state file. */
  datatype Sys = Sys(marker: Option<string>, claimers: map<Id, Claimer>, creator: Id, live: set<string>)

  datatype Event =
    | Step(c: Id)
    | WriteFails(c: Id, kept: nat)  // only that many characters reach the file
    | Reap
    | Agents(live: set<string>)

  function Goto(s: Sys, c: Id, pc: Pc): Sys
    requires c in s.claimers
  {
    s.(claimers := s.claimers[c := s.claimers[c].(pc := pc)])
  }

  /** Exclusive create. */
  function Create(s: Sys, c: Id): Sys
    requires c in s.claimers
  {
    if s.marker.None? then Goto(s, c, Writing).(marker := Some(""), creator := c) else Goto(s, c, ReadBack)
  }

  predicate Holds(m: Option<string>, sid: string) {
    m.Some? && TrimSpace(m.value) == sid
  }

  function StepClaimer(s: Sys, c: Id): Sys
    requires c in s.claimers
  {
    var Claimer(kind, sid, pc) := s.claimers[c];
    match pc
    case Start =>
      if kind.Dashboard? then Create(s, c)
      else if s.marker.Some? then Goto(s, c, Done(Holds(s.marker, sid)))
      else Goto(s, c, Opening)
    case Opening => Create(s, c)
    case Writing => Goto(s, c, Done(true)).(marker := Some(sid))
    case Cleanup => Goto(s, c, Done(false)).(marker := None)
    case ReadBack => Goto(s, c, Done(Holds(s.marker, sid)))
    case Done(_) => s
  }

  /** The reaper removes a marker whose owner has no state file, in one step. */
  function ReapStale(m: Option<string>, live: set<string>): Option<string> {
    if m.Some? && TrimSpace(m.value) != "" && TrimSpace(m.value) !in live then None else m
  }

  function Next(s: Sys, ev: Event): Sys {
    match ev
    case Step(c) => if c in s.claimers then StepClaimer(s, c) else s
    case WriteFails(c, kept) =>
      if c in s.claimers && s.claimers[c].pc.Writing? && kept < |s.claimers[c].sid| then
        Goto(s, c, if s.claimers[c].kind.Dashboard? then Cleanup else Done(false))
          .(marker := Some(s.claimers[c].sid[..kept]))
      else s
    case Reap => s.(marker := ReapStale(s.marker, s.live))
    case Agents(live) => s.(live := live)
  }

  function Exec(s: Sys, evs: seq<Event>): Sys {
    if evs == [] then s else Next(Exec(s, evs[..|evs| - 1]), evs[|evs| - 1])
  }

  ghost predicate Init(s: Sys, sids: set<string>) {
    s.marker.None? && forall c <- s.claimers :: s.claimers[c].pc.Start? && s.claimers[c].sid in sids
  }

  /** All claims that succeeded are for the same session. */
  ghost predicate Agree(s: Sys) {
    forall c <- s.claimers, d <- s.claimers ::
      s.claimers[c].pc == Done(true) && s.claimers[d].pc == Done(true) ==> s.claimers[c].sid == s.claimers[d].sid
  }

  /** Nothing that may be read in place of one whole session id passes for another. */
  ghost predicate Unconfusable(sids: set<string>) {
    forall a <- sids, b <- sids :: forall k | 0 <= k <= |a| :: TrimSpace(a[..k]) == b ==> k == |a| && a == b
  }

  // ----- agreement -----

  ghost predicate ClaimerInv(s: Sys, c: Id)
    requires c in s.claimers
  {
    var pc := s.claimers[c].pc;
    && (pc.Writing? || pc.Cleanup? ==> s.marker.Some? && s.creator == c)
    && (pc == Done(true) ==>
          && s.marker == Some(s.claimers[c].sid)
          && s.creator in s.claimers && s.claimers[s.creator].sid == s.claimers[c].sid)
  }

  /** The marker is what its creator has written so far: all of it unless the write is still
      to come or has failed. */
  ghost predicate MarkerInv(s: Sys) {
    s.marker.Some? ==>
      && s.creator in s.claimers
      && var Claimer(_, sid, pc) := s.claimers[s.creator];
      && s.marker.value <= sid
      && (pc.Writing? || pc == Done(true) || pc.Cleanup? || pc == Done(false))
      && (pc.Writing? ==> s.marker.value == "")
      && (pc == Done(true) ==> s.marker.value == sid)
      && (pc.Cleanup? || pc == Done(false) ==> s.marker.value != sid)
  }

  ghost predicate Inv(s: Sys, sids: set<string>) {
    && MarkerInv(s)
    && (forall c <- s.claimers :: s.claimers[c].sid in sids && ClaimerInv(s, c))
  }

  lemma ReadBackTells(s: Sys, sids: set<string>, c: Id)
    requires Inv(s, sids) && Unconfusable(sids) && c in s.claimers
    requires Holds(s.marker, s.claimers[c].sid)
    ensures s.marker == Some(s.claimers[c].sid) && s.claimers[s.creator].sid == s.claimers[c].sid
  {
    var a := s.claimers[s.creator].sid;
    var k := |s.marker.value|;
    assert a[..k] == s.marker.value && TrimSpace(a[..k]) == s.claimers[c].sid;
    assert a[..|a|] == a;
  }

  lemma CreateInv(s: Sys, c: Id, sids: set<string>)
    requires Inv(s, sids) && c in s.claimers && (s.claimers[c].pc.Start? || s.claimers[c].pc.Opening?)
    ensures Inv(Create(s, c), sids)
  {
    hide TrimSpace;
    assert forall d <- s.claimers :: ClaimerInv(s, d);
  }

  /** Looking at the marker settles a claim one way or the other. */
  lemma LookInv(s: Sys, c: Id, sids: set<string>)
    requires Inv(s, sids) && Unconfusable(sids) && c in s.claimers
    requires s.claimers[c].pc.Start? || s.claimers[c].pc.ReadBack?
    ensures Inv(Goto(s, c, Done(Holds(s.marker, s.claimers[c].sid))), sids)
  {
    hide TrimSpace, Unconfusable, Holds;
    if Holds(s.marker, s.claimers[c].sid) { ReadBackTells(s, sids, c); }
    assert ClaimerInv(s, c);
    var s' := Goto(s, c, Done(Holds(s.marker, s.claimers[c].sid)));
    forall d <- s'.claimers ensures s'.claimers[d].sid in sids && ClaimerInv(s', d) {
      assert ClaimerInv(s, d);
    }
  }

  lemma WriterInv(s: Sys, c: Id, sids: set<string>)
    requires Inv(s, sids) && c in s.claimers && (s.claimers[c].pc.Writing? || s.claimers[c].pc.Cleanup?)
    ensures Inv(StepClaimer(s, c), sids)
  {
    hide TrimSpace;
    assert forall d <- s.claimers :: ClaimerInv(s, d);
  }

  lemma FailureInv(s: Sys, c: Id, kept: nat, sids: set<string>)
    requires Inv(s, sids)
    ensures Inv(Next(s, WriteFails(c, kept)), sids)
  {
    hide TrimSpace;
    assert forall d <- s.claimers :: ClaimerInv(s, d);
  }

  lemma NextInv(s: Sys, ev: Event, sids: set<string>)
    requires Inv(s, sids) && Unconfusable(sids) && !ev.Reap?
    ensures Inv(Next(s, ev), sids)
  {
    match ev
    case WriteFails(c, kept) => FailureInv(s, c, kept, sids);
    case Agents(_) => assert forall d <- s.claimers :: ClaimerInv(s, d);
    case Step(c) =>
      if c in s.claimers {
        match s.claimers[c].pc
        case Start => CreateInv(s, c, sids); LookInv(s, c, sids); GotoInv(s, c, sids);
        case Opening => CreateInv(s, c, sids);
        case Writing => WriterInv(s, c, sids);
        case Cleanup => WriterInv(s, c, sids);
        case ReadBack => LookInv(s, c, sids);
        case Done(_) =>
      }
  }

  /** A hook that saw no marker goes on to open. */
  lemma GotoInv(s: Sys, c: Id, sids: set<string>)
    requires Inv(s, sids) && c in s.claimers && s.claimers[c].pc.Start?
    ensures Inv(Goto(s, c, Opening), sids)
  {
    hide TrimSpace;
    assert forall d <- s.claimers :: ClaimerInv(s, d);
  }

  ghost predicate NoReap(evs: seq<Event>) { Reap !in evs }

  lemma {:induction false} Reach(s0: Sys, evs: seq<Event>, sids: set<string>)
    requires Init(s0, sids) && Unconfusable(sids) && NoReap(evs)
    ensures Inv(Exec(s0, evs), sids)
  {
    if evs != [] {
      Reach(s0, evs[..|evs| - 1], sids);
      NextInv(Exec(s0, evs[..|evs| - 1]), evs[|evs| - 1], sids);
    }
  }

  /** In every run without a reap, over every choice of claimers for these sessions, all
      successful claims are for one session. */
  ghost predicate AlwaysAgree(sids: set<string>) {
    forall s0: Sys, evs: seq<Event> | Init(s0, sids) && NoReap(evs) :: Agree(Exec(s0, evs))
  }

  /** Claims agree exactly for session ids of which no truncated or trimmed read passes for
      another: in particular for ids of one length without surrounding space. */
  lemma ClaimsAgreeExactly(sids: set<string>)
    ensures AlwaysAgree(sids) <==> Unconfusable(sids)
  {
    if Unconfusable(sids) {
      forall s0: Sys, evs: seq<Event> | Init(s0, sids) && NoReap(evs)
        ensures Agree(Exec(s0, evs))
      {
        Reach(s0, evs, sids);
        var s := Exec(s0, evs);
        forall c <- s.claimers, d <- s.claimers | s.claimers[c].pc == Done(true) && s.claimers[d].pc == Done(true)
          ensures s.claimers[c].sid == s.claimers[d].sid
        {
          assert ClaimerInv(s, c) && ClaimerInv(s, d);
        }
      }
    } else {
      var a, b, k :| a in sids && b in sids && 0 <= k <= |a| && TrimSpace(a[..k]) == b && !(k == |a| && a == b);
      var s0, evs := Confusion(a, b, k, sids);
    }
  }

  /** Session ids of one length without surrounding space, such as UUIDs, qualify. */
  lemma UniformIdsAgree(sids: set<string>, n: nat)
    requires forall a <- sids :: |a| == n && TrimSpace(a) == a
    ensures AlwaysAgree(sids)
  {
    hide TrimSpace, AlwaysAgree;
    forall a, b | a in sids && b in sids
      ensures forall k | 0 <= k <= |a| :: TrimSpace(a[..k]) == b ==> k == |a| && a == b
    {
      assert a[..|a|] == a;
    }
    ClaimsAgreeExactly(sids);
  }

  /** The failing family: `a`'s partial (or untrimmed) content is taken by `b` for its own id,
      after which `a` claims as well. */
  lemma Confusion(a: string, b: string, k: nat, sids: set<string>) returns (s0: Sys, evs: seq<Event>)
    requires a in sids && b in sids && k <= |a| && TrimSpace(a[..k]) == b && !(k == |a| && a == b)
    ensures Init(s0, sids) && NoReap(evs) && !Agree(Exec(s0, evs))
  {
    if k < |a| {
      s0, evs := ConfusedByPart(a, b, k, sids);
    } else {
      s0, evs := ConfusedBySpace(a, b, sids);
    }
  }

  lemma ConfusedByPart(a: string, b: string, k: nat, sids: set<string>) returns (s0: Sys, evs: seq<Event>)
    requires a in sids && b in sids && k < |a| && TrimSpace(a[..k]) == b
    ensures Init(s0, sids) && NoReap(evs) && !Agree(Exec(s0, evs))
  {
    var x := Claimer(Dashboard, a, Start);
    s0 := Sys(None, map[0 := x, 1 := Claimer(Dashboard, b, Start), 2 := x], 0, {});
    hide TrimSpace;
    evs := [Step(0), WriteFails(0, k), Step(1), Step(1), Step(0), Step(2), Step(2)];
    var s1 := Next(s0, Step(0));
    var s2 := Next(s1, WriteFails(0, k));
    var s3 := Next(Next(s2, Step(1)), Step(1));
    assert s3.claimers[1].pc == Done(true);
    var s4 := Next(s3, Step(0));
    assert s4.marker == None;
    var s5 := Next(Next(s4, Step(2)), Step(2));
    assert s5.claimers[2].pc == Done(true) && s5.claimers[1].pc == Done(true);
    PartIsOther(a, b, k);
    Exec7(s0, evs);
  }

  lemma PartIsOther(a: string, b: string, k: nat)
    requires k < |a| && TrimSpace(a[..k]) == b
    ensures a != b
  {
    hide TrimSpace;
    assert |TrimSpace(a[..k])| <= k;
  }

  lemma ConfusedBySpace(a: string, b: string, sids: set<string>) returns (s0: Sys, evs: seq<Event>)
    requires a in sids && b in sids && TrimSpace(a[..|a|]) == b && a != b
    ensures Init(s0, sids) && NoReap(evs) && !Agree(Exec(s0, evs))
  {
    s0 := Sys(None, map[0 := Claimer(Dashboard, a, Start), 1 := Claimer(Dashboard, b, Start)], 0, {});
    hide TrimSpace;
    assert a[..|a|] == a;
    evs := [Step(0), Step(0), Step(1), Step(1)];
    var s2 := Next(Next(s0, Step(0)), Step(0));
    var s4 := Next(Next(s2, Step(1)), Step(1));
    assert s4.claimers[0].pc == Done(true) && s4.claimers[1].pc == Done(true);
    Exec4(s0, evs);
  }

  lemma Exec4(s: Sys, e: seq<Event>)
    requires |e| == 4
    ensures Exec(s, e) == Next(Next(Next(Next(s, e[0]), e[1]), e[2]), e[3])
  {
    hide Next;
    assert e[..3][..2] == e[..2] && e[..2][..1] == e[..1] && e[..1][..0] == [];
    assert Exec(s, e[..1]) == Next(s, e[0]);
    assert Exec(s, e[..2]) == Next(Exec(s, e[..1]), e[1]);
    assert Exec(s, e[..3]) == Next(Exec(s, e[..2]), e[2]);
  }

  lemma Exec7(s: Sys, e: seq<Event>)
    requires |e| == 7
    ensures Exec(s, e) == Next(Next(Next(Next(Next(Next(Next(s, e[0]), e[1]), e[2]), e[3]), e[4]), e[5]), e[6])
  {
    hide Next;
    Exec4(s, e[..4]);
    assert e[..6][..5] == e[..5] && e[..5][..4] == e[..4];
    assert Exec(s, e[..5]) == Next(Exec(s, e[..4]), e[4]);
    assert Exec(s, e[..6]) == Next(Exec(s, e[..5]), e[5]);
  }

  // ----- reaping -----

  predicate NoFailure(evs: seq<Event>) {
    forall e <- evs :: !e.WriteFails?
  }

  /** With successful writes, whoever is writing still has its own empty marker in place. */
  ghost predicate WritersInv(s: Sys) {
    forall c <- s.claimers ::
      && !s.claimers[c].pc.Cleanup?
      && (s.claimers[c].pc.Writing? ==> s.marker == Some("") && s.creator == c)
  }

  lemma {:induction false} ReachWriters(s0: Sys, evs: seq<Event>, sids: set<string>)
    requires Init(s0, sids) && NoFailure(evs)
    ensures WritersInv(Exec(s0, evs))
  {
    if evs != [] {
      var n := |evs| - 1;
      assert evs[n] in evs;
      ReachWriters(s0, evs[..n], sids);
      NextWriters(Exec(s0, evs[..n]), evs[n]);
    }
  }

  lemma NextWriters(s: Sys, ev: Event)
    requires WritersInv(s) && !ev.WriteFails?
    ensures WritersInv(Next(s, ev))
  {
    hide TrimSpace;
    BlankTrims();
  }

  lemma BlankTrims()
    ensures TrimSpace("") == ""
  {
  }

  /** A worktree's marker leaves a session only while that session has no state file: across
      any stretch of a run in which the session stays live, reaps and rival claims included,
      the marker keeps holding it. */
  lemma {:induction false} LiveOwnerKeepsMarker(s0: Sys, a: seq<Event>, b: seq<Event>, sids: set<string>, sid: string)
    requires Init(s0, sids) && NoFailure(a + b) && sid != ""
    requires Holds(Exec(s0, a).marker, sid)
    requires forall k | 0 <= k <= |b| :: sid in Exec(s0, a + b[..k]).live
    ensures Exec(s0, a + b).marker == Exec(s0, a).marker
  {
    if b == [] {
      assert a + b == a;
    } else {
      hide Next, TrimSpace;
      var n := |b| - 1;
      forall k | 0 <= k <= n ensures sid in Exec(s0, a + b[..n][..k]).live {
        assert b[..n][..k] == b[..k];
      }
      forall e <- a + b[..n] ensures !e.WriteFails? { assert e in a + b; }
      LiveOwnerKeepsMarker(s0, a, b[..n], sids, sid);
      assert (a + b)[..|a + b| - 1] == a + b[..n];
      var s := Exec(s0, a + b[..n]);
      ReachWriters(s0, a + b[..n], sids);
      assert b[n] in a + b;
      assert b[..n] == b[..|b| - 1];
      OwnerStays(s, b[n], sid);
    }
  }

  lemma OwnerStays(s: Sys, ev: Event, sid: string)
    requires WritersInv(s) && !ev.WriteFails? && sid != "" && Holds(s.marker, sid) && sid in s.live
    ensures Next(s, ev).marker == s.marker
  {
    hide TrimSpace;
    BlankTrims();
  }

  /** A reap removes a marker exactly when its owner has no state file; an empty marker is left alone. */
  lemma ReapsTheDead(s: Sys)
    ensures var s' := Next(s, Reap);
            && s'.marker == (if s.marker.Some? && TrimSpace(s.marker.value) !in s.live + {""} then None else s.marker)
            && s' == s.(marker := s'.marker)
  {
    hide TrimSpace;
  }

  lemma {:induction false} ExecAppend(s: Sys, a: seq<Event>, b: seq<Event>)
    ensures Exec(s, a + b) == Exec(Exec(s, a), b)
  {
    hide Next;
    if b == [] {
      assert a + b == a;
    } else {
      var n := |b| - 1;
      assert (a + b)[..|a + b| - 1] == a + b[..n];
      ExecAppend(s, a, b[..n]);
    }
  }

  /** A claimer that runs alone on a free worktree gets it, whichever kind it is. */
  lemma ClaimsFree(s: Sys, c: Id)
    requires c in s.claimers && s.claimers[c].pc == Start && s.marker.None?
    ensures var s' := Next(Next(Next(s, Step(c)), Step(c)), Step(c));
            && c in s'.claimers && s'.claimers[c].pc == Done(true) && s'.marker == Some(s.claimers[c].sid)
  {
    hide TrimSpace;
  }

  /** ... and on one that another session holds it does not. */
  lemma ClaimsTaken(s: Sys, c: Id)
    requires c in s.claimers && s.claimers[c].pc == Start && s.marker.Some? && !Holds(s.marker, s.claimers[c].sid)
    ensures var s' := Next(Next(Next(s, Step(c)), Step(c)), Step(c));
            && c in s'.claimers && s'.claimers[c].pc == Done(false) && s'.marker == s.marker
  {
    hide TrimSpace;
  }

  /** The marker of a session without a state file shuts out every other session until it is reaped:
      wherever a run has come to, a new claim fails before the reap and succeeds after it. */
  lemma ReapFreesWorktree(s0: Sys, evs: seq<Event>, c: Id)
    requires var s := Exec(s0, evs);
             && c in s.claimers && s.claimers[c].pc == Start
             && s.marker.Some? && TrimSpace(s.marker.value) !in s.live + {"", s.claimers[c].sid}
    ensures var s, t := Exec(s0, evs), Exec(s0, evs + [Step(c), Step(c), Step(c)]);
            c in t.claimers && t.claimers[c].pc == Done(false) && t.marker == s.marker
    ensures var s, t := Exec(s0, evs), Exec(s0, evs + [Reap, Step(c), Step(c), Step(c)]);
            c in t.claimers && t.claimers[c].pc == Done(true) && t.marker == Some(s.claimers[c].sid)
  {
    hide Exec, Next, TrimSpace;
    var s := Exec(s0, evs);
    ReapsTheDead(s);
    ClaimsTaken(s, c);
    ClaimsFree(Next(s, Reap), c);
    ExecAppend(s0, evs, [Step(c), Step(c), Step(c)]);
    ExecAppend(s0, evs, [Reap, Step(c), Step(c), Step(c)]);
    Exec3(s, [Step(c), Step(c), Step(c)]);
    Exec4(s, [Reap, Step(c), Step(c), Step(c)]);
  }

  lemma Exec3(s: Sys, e: seq<Event>)
    requires |e| == 3
    ensures Exec(s, e) == Next(Next(Next(s, e[0]), e[1]), e[2])
  {
    hide Next;
    assert e[..2][..1] == e[..1] && e[..1][..0] == [];
    assert Exec(s, e[..1]) == Next(s, e[0]);
    assert Exec(s, e[..2]) == Next(Exec(s, e[..1]), e[1]);
  }

  // ----- the dashboard's own functions, run alone -----

  class MarkerFile {
    var content: Option<string>

    constructor (initial: Option<string>)
      ensures content == initial
    {
      content := initial;
    }

    /** `written` is how much of the id a write gets onto the disk. */
    method ClaimMarker(sid: string, written: nat) returns (claimed: bool)
      modifies this
      ensures old(content).None? ==> claimed == (written >= |sid|) && content == (if claimed then Some(sid) else None)
      ensures old(content).Some? ==> content == old(content) && claimed == Holds(content, sid)
    {
      if content.None? {
        content := Some("");
        if written < |sid| {
          content := Some(sid[..written]);
          content := None;
          return false;
        }
        content := Some(sid);
        return true;
      }
      var owner := TrimSpace(content.value);
      return owner == sid;
    }

    method ReapStaleMarker(live: set<string>)
      modifies this
      ensures old(content).Some? && TrimSpace(old(content).value) !in live + {""} ==> content == None
      ensures old(content).None? || TrimSpace(old(content).value) in live + {""} ==> content == old(content)
    {
      if content.None? { return; }
      var owner := TrimSpace(content.value);
      if owner == "" { return; }
      if owner in live { return; }
      content := None;
    }
  }
}
