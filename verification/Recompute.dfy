/** Rewriting stored usage rows from corrected session totals, each row keeping its share. */
module Recompute {
  import opened Domain
  import opened Ledger
  import opened Options

  datatype SessionInfo = SessionInfo(session: string, model: string)

  /** One row's part of the corrected usage. */
  function ScaleRow(corrected: Usage, oldTotal: real, oldRowCost: real, isLast: bool, model: string): Usage {
    if oldTotal <= 0.0 then
      (if isLast then corrected.(model := model) else Usage(0, 0, 0, 0, 0.0, model))
    else
      var ratio := oldRowCost / oldTotal;
      Scaled(corrected, ratio, Times(corrected.cost, ratio), model)
  }

  /** The row with the greatest date of its session. */
  predicate IsLast(ks: set<Key>, k: Key) { k in ks && forall j <- ks :: j.date <= k.date }

  lemma {:induction false} HasLast(ks: set<Key>)
    requires ks != {}
    ensures exists k :: IsLast(ks, k)
    decreases |ks|
  {
    var k :| k in ks;
    if ks == {k} {
      assert IsLast(ks, k);
    } else {
      HasLast(ks - {k});
      var m :| IsLast(ks - {k}, m);
      var r := if k.date <= m.date then m else k;
      forall j | j in ks ensures j.date <= r.date { assert j == k || j in ks - {k}; }
      assert IsLast(ks, r);
    }
  }

  /** The table after one session is rewritten: its rows are scaled, all others stay. */
  ghost function Rewritten(t: Table, session: string, corrected: Usage, model: string): (u: Table)
    ensures u.Keys == t.Keys
  {
    var ks := SessionKeys(t, session, CLAUDE);
    map k | k in t :: if k in ks then ScaleRow(corrected, Stored(t, session), t[k].cost, IsLast(ks, k), model) else t[k]
  }

  lemma RewrittenKeys(t: Table, session: string, corrected: Usage, model: string, other: string)
    ensures SessionKeys(Rewritten(t, session, corrected, model), other, CLAUDE) == SessionKeys(t, other, CLAUDE)
  {
  }

  /** Everything lands on the last row when nothing was stored before. */
  lemma SumOnLast(t: Table, ks: set<Key>, last: Key, c: Column)
    requires ks <= t.Keys && last in ks
    requires forall k <- ks :: k != last ==> Cell(t[k], c) == 0.0
    ensures Sum(t, ks, c) == Cell(t[last], c)
  {
    SumPick(t, ks, last, c);
    SumFrame(t, map k | k in t :: Usage(0, 0, 0, 0, 0.0, ""), ks - {last}, c);
    NothingSums(map k | k in t :: Usage(0, 0, 0, 0, 0.0, ""), ks - {last}, c);
  }

  lemma {:induction false} NothingSums(t: Table, ks: set<Key>, c: Column)
    requires ks <= t.Keys && forall k <- ks :: Cell(t[k], c) == 0.0
    ensures Sum(t, ks, c) == 0.0
    decreases |ks|
  {
    if ks != {} {
      var k :| k in ks;
      SumPick(t, ks, k, c);
      NothingSums(t, ks - {k}, c);
    }
  }

  lemma OneLast(t: Table, session: string, j: Key, k: Key)
    requires IsLast(SessionKeys(t, session, CLAUDE), j) && IsLast(SessionKeys(t, session, CLAUDE), k)
    ensures j == k
  {
  }

  lemma ShareOfCost(cost: real, row: real, total: real)
    requires total > 0.0
    ensures Times(cost, row / total) == Times(cost / total, row)
  {
    var r, f := row / total, cost / total;
    assert r * total == row && f * total == cost;
    Swap(f, total, r);
  }

  lemma Swap(f: real, total: real, r: real)
    ensures (f * total) * r == f * (r * total)
  {
  }

  lemma WholeCost(cost: real, total: real)
    requires total > 0.0
    ensures Times(cost / total, total) == cost
  {
  }

  /** The rewritten rows of a session add up to exactly its corrected cost, whatever the old rows
      held, as long as there is one. */
  lemma CostsSumToCorrected(t: Table, session: string, corrected: Usage, model: string)
    requires SessionKeys(t, session, CLAUDE) != {}
    ensures Stored(Rewritten(t, session, corrected, model), session) == corrected.cost
  {
    hide Times, Part;
    var ks := SessionKeys(t, session, CLAUDE);
    var u := Rewritten(t, session, corrected, model);
    var total := Stored(t, session);
    RewrittenKeys(t, session, corrected, model, session);
    if total <= 0.0 {
      HasLast(ks);
      var last :| IsLast(ks, last);
      forall k | k in ks && k != last ensures Cell(u[k], Cost) == 0.0 {
        if IsLast(ks, k) { OneLast(t, session, k, last); }
      }
      SumOnLast(u, ks, last, Cost);
    } else {
      var factor := corrected.cost / total;
      forall k | k in ks ensures Cell(u[k], Cost) == Times(factor, Cell(t[k], Cost)) {
        ShareOfCost(corrected.cost, t[k].cost, total);
      }
      SumTimes(t, u, ks, Cost, factor);
      WholeCost(corrected.cost, total);
    }
  }

  lemma RowShare(t: Table, session: string, k: Key)
    requires k in SessionKeys(t, session, CLAUDE) && Stored(t, session) > 0.0
    requires forall j <- SessionKeys(t, session, CLAUDE) :: t[j].cost >= 0.0
    ensures 0.0 <= t[k].cost / Stored(t, session) <= 1.0
  {
    var ks := SessionKeys(t, session, CLAUDE);
    SumPick(t, ks, k, Cost);
    SumSign(t, ks - {k}, Cost);
    Fraction(t[k].cost, Stored(t, session));
  }

  lemma Fraction(x: real, y: real)
    requires 0.0 <= x <= y && y > 0.0
    ensures 0.0 <= x / y <= 1.0
  {
  }

  /** Truncation loses less than one token per row and never invents any. */
  lemma TokensNearlyKept(t: Table, session: string, corrected: Usage, model: string, c: Column)
    requires var ks := SessionKeys(t, session, CLAUDE); ks != {} && forall k <- ks :: t[k].cost >= 0.0
    requires !c.Cost? && Cell(corrected, c) >= 0.0
    ensures var ks := SessionKeys(t, session, CLAUDE);
            var sum := Sum(Rewritten(t, session, corrected, model), ks, c);
            Cell(corrected, c) - |ks| as real < sum <= Cell(corrected, c)
  {
    hide Rewritten, Stored, Cell;
    if Stored(t, session) <= 0.0 {
      TokensOnLast(t, session, corrected, model, c);
    } else {
      TokensByShare(t, session, corrected, model, c);
    }
  }

  lemma TokensOnLast(t: Table, session: string, corrected: Usage, model: string, c: Column)
    requires SessionKeys(t, session, CLAUDE) != {} && Stored(t, session) <= 0.0 && !c.Cost?
    ensures var ks := SessionKeys(t, session, CLAUDE);
            Sum(Rewritten(t, session, corrected, model), ks, c) == Cell(corrected, c) && |ks| >= 1
  {
    var ks := SessionKeys(t, session, CLAUDE);
    var u := Rewritten(t, session, corrected, model);
    HasLast(ks);
    var last :| IsLast(ks, last);
    forall k | k in ks && k != last ensures Cell(u[k], c) == 0.0 {
      if IsLast(ks, k) { OneLast(t, session, k, last); }
    }
    SumOnLast(u, ks, last, c);
    assert |ks| == |ks - {last}| + 1;
  }

  lemma TokensByShare(t: Table, session: string, corrected: Usage, model: string, c: Column)
    requires var ks := SessionKeys(t, session, CLAUDE); ks != {} && forall k <- ks :: t[k].cost >= 0.0
    requires !c.Cost? && Cell(corrected, c) >= 0.0 && Stored(t, session) > 0.0
    ensures var ks := SessionKeys(t, session, CLAUDE);
            var sum := Sum(Rewritten(t, session, corrected, model), ks, c);
            Cell(corrected, c) - |ks| as real < sum <= Cell(corrected, c)
  {
    hide Times, Part;
    var ks := SessionKeys(t, session, CLAUDE);
    var u := Rewritten(t, session, corrected, model);
    var factor := Cell(corrected, c) / Stored(t, session);
    // The exact shares, written into the cost column of a table of their own.
    var exact := map k | k in t :: Usage(0, 0, 0, 0, Times(factor, t[k].cost), "");
    SumTimes(t, exact, ks, Cost, factor);
    WholeCost(Cell(corrected, c), Stored(t, session));
    forall k | k in ks ensures Cell(exact[k], Cost) - 1.0 < Cell(u[k], c) <= Cell(exact[k], Cost) {
      RowTokens(t, session, corrected, model, c, k);
    }
    SumLosing(exact, u, ks, Cost, c);
  }

  lemma RowTokens(t: Table, session: string, corrected: Usage, model: string, c: Column, k: Key)
    requires k in SessionKeys(t, session, CLAUDE) && forall j <- SessionKeys(t, session, CLAUDE) :: t[j].cost >= 0.0
    requires !c.Cost? && Cell(corrected, c) >= 0.0 && Stored(t, session) > 0.0
    ensures var share := Times(Cell(corrected, c) / Stored(t, session), t[k].cost);
            share - 1.0 < Cell(Rewritten(t, session, corrected, model)[k], c) <= share
  {
    hide Times, Part, Cell, Scaled;
    var ratio := t[k].cost / Stored(t, session);
    RowShare(t, session, k);
    ShareOfCost(Cell(corrected, c), t[k].cost, Stored(t, session));
    ScaledCell(corrected, ratio, Times(corrected.cost, ratio), model, c);
  }

  lemma ScaledCell(u: Usage, ratio: real, cost: real, model: string, c: Column)
    requires !c.Cost? && Cell(u, c) >= 0.0 && 0.0 <= ratio <= 1.0
    ensures Times(Cell(u, c), ratio) - 1.0 < Cell(Scaled(u, ratio, cost, model), c) <= Times(Cell(u, c), ratio)
  {
    hide Times, Part;
    match c {
      case Input => PartWithin(u.input, ratio);
      case Output => PartWithin(u.output, ratio);
      case CacheRead => PartWithin(u.cacheRead, ratio);
      case CacheWrite => PartWithin(u.cacheWrite, ratio);
    }
  }

  /** The share of a row in the rewritten costs is the share it had. */
  lemma ShareKept(cost: real, row: real, total: real)
    requires total > 0.0 && cost > 0.0
    ensures Times(cost, row / total) / cost == row / total
  {
  }

  /** Rewriting a second time changes no cost, and no row beyond its model unless everything was
      rewritten to zero. */
  lemma RewriteTwice(t: Table, session: string, corrected: Usage, model: string, model2: string, k: Key)
    requires k in t && corrected.cost >= 0.0
    ensures var once := Rewritten(t, session, corrected, model);
            var twice := Rewritten(once, session, corrected, model2);
            && twice[k].cost == once[k].cost
            && (corrected.cost > 0.0 ==> twice[k].(model := "") == once[k].(model := ""))
  {
    hide Part, Times;
    var ks := SessionKeys(t, session, CLAUDE);
    if k in ks {
      RewrittenKeys(t, session, corrected, model, session);
      CostsSumToCorrected(t, session, corrected, model);
      if corrected.cost > 0.0 {
        RewriteTwicePositive(t, session, corrected, model, model2, k);
      } else if Stored(t, session) > 0.0 {
        NoCost(t[k].cost / Stored(t, session));
      }
    }
  }

  lemma NoCost(ratio: real)
    ensures Times(0.0, ratio) == 0.0
  {
  }

  lemma RewriteTwicePositive(t: Table, session: string, corrected: Usage, model: string, model2: string, k: Key)
    requires k in SessionKeys(t, session, CLAUDE) && corrected.cost > 0.0
    ensures var once := Rewritten(t, session, corrected, model);
            Rewritten(once, session, corrected, model2)[k] == once[k].(model := model2)
  {
    hide Part, Times;
    RewrittenKeys(t, session, corrected, model, session);
    CostsSumToCorrected(t, session, corrected, model);
    if Stored(t, session) > 0.0 {
      ShareKept(corrected.cost, t[k].cost, Stored(t, session));
    } else {
      WholeOrNothing(corrected, model2);
    }
  }

  /** A row that holds all of the cost, or none of it, is scaled to itself. */
  lemma WholeOrNothing(u: Usage, model: string)
    requires u.cost > 0.0
    ensures Scaled(u, u.cost / u.cost, Times(u.cost, u.cost / u.cost), model) == u.(model := model)
    ensures Scaled(u, 0.0 / u.cost, Times(u.cost, 0.0 / u.cost), model) == Usage(0, 0, 0, 0, 0.0, model)
  {
    assert u.cost / u.cost == 1.0 && 0.0 / u.cost == 0.0;
  }

  /** Each row keeps its share of the session's cost; without any cost the last day gets everything.
      Rewritten rows carry the given model. */
  lemma ShareLaw(t: Table, session: string, corrected: Usage, model: string, k: Key)
    requires k in SessionKeys(t, session, CLAUDE)
    ensures var u := Rewritten(t, session, corrected, model);
            && (Stored(t, session) > 0.0 ==> u[k].cost * Stored(t, session) == corrected.cost * t[k].cost)
            && (Stored(t, session) <= 0.0 ==>
                  if forall j <- SessionKeys(t, session, CLAUDE) :: j.date <= k.date
                  then u[k] == corrected.(model := model) else u[k] == Usage(0, 0, 0, 0, 0.0, model))
            && u[k].model == model
  {
    hide Part, Times, Stored;
    var total := Stored(t, session);
    if total > 0.0 {
      assert Rewritten(t, session, corrected, model)[k].cost == Times(corrected.cost, t[k].cost / total);
      Shared(corrected.cost, t[k].cost, total);
    }
  }

  lemma Shared(cost: real, row: real, total: real)
    requires total > 0.0
    ensures Times(cost, row / total) * total == cost * row
  {
    var r := row / total;
    assert r * total == row;
    assert (cost * r) * total == cost * (r * total);
  }

  // ----- the run over all sessions -----

  predicate Skipped(info: SessionInfo) { info.session == "" || info.session == "codex-daily" }

  /** `resolve` is the usage re-read from the session's transcript, if that can be located. */
  ghost function RecomputeOne(t: Table, info: SessionInfo, resolve: string -> Option<Usage>): (u: Table)
    ensures u.Keys == t.Keys
  {
    if Skipped(info) || resolve(info.session).None? then t
    else
      var corrected := resolve(info.session).value;
      Rewritten(t, info.session, corrected, if info.model == "" then corrected.model else info.model)
  }

  ghost function RecomputeAll(t: Table, sessions: seq<SessionInfo>, resolve: string -> Option<Usage>): (u: Table)
    ensures u.Keys == t.Keys
  {
    if sessions == [] then t
    else RecomputeOne(RecomputeAll(t, sessions[..|sessions| - 1], resolve), sessions[|sessions| - 1], resolve)
  }

  predicate Rewrites(sessions: seq<SessionInfo>, resolve: string -> Option<Usage>, session: string) {
    resolve(session).Some? && exists info <- sessions :: info.session == session && !Skipped(info)
  }

  lemma SameRowsSameStored(t: Table, u: Table, session: string)
    requires t.Keys == u.Keys && forall k <- SessionKeys(t, session, CLAUDE) :: t[k].cost == u[k].cost
    ensures Stored(t, session) == Stored(u, session)
  {
    assert SessionKeys(t, session, CLAUDE) == SessionKeys(u, session, CLAUDE);
    SumFrame(t, u, SessionKeys(t, session, CLAUDE), Cost);
  }

  lemma OneOther(t: Table, info: SessionInfo, resolve: string -> Option<Usage>, k: Key)
    requires k in t && (k.session != info.session || k.provider != CLAUDE)
    ensures RecomputeOne(t, info, resolve)[k] == t[k]
  {
    hide ScaleRow;
  }

  /** After the run every rewritten session sums to its corrected cost. */
  lemma {:induction false} RunCorrectsCosts(t: Table, sessions: seq<SessionInfo>, resolve: string -> Option<Usage>,
      session: string)
    requires Rewrites(sessions, resolve, session) && SessionKeys(t, session, CLAUDE) != {}
    ensures Stored(RecomputeAll(t, sessions, resolve), session) == resolve(session).value.cost
  {
    hide ScaleRow, Stored, Rewritten;
    var n := |sessions| - 1;
    var before := RecomputeAll(t, sessions[..n], resolve);
    var info := sessions[n];
    if info.session == session {
      assert SessionKeys(before, session, CLAUDE) == SessionKeys(t, session, CLAUDE);
      var corrected := resolve(session).value;
      CostsSumToCorrected(before, session, corrected, if info.model == "" then corrected.model else info.model);
    } else {
      var other :| other in sessions && other.session == session && !Skipped(other);
      assert other in sessions[..n];
      RunCorrectsCosts(t, sessions[..n], resolve, session);
      forall k | k in SessionKeys(before, session, CLAUDE)
        ensures before[k].cost == RecomputeOne(before, info, resolve)[k].cost
      {
        OneOther(before, info, resolve, k);
      }
      SameRowsSameStored(before, RecomputeOne(before, info, resolve), session);
    }
  }

  /** All other rows stay exactly as they were. */
  lemma {:induction false} RunKeepsOthers(t: Table, sessions: seq<SessionInfo>, resolve: string -> Option<Usage>,
                                          k: Key)
    requires k in t && (k.provider != CLAUDE || !Rewrites(sessions, resolve, k.session))
    ensures RecomputeAll(t, sessions, resolve)[k] == t[k]
  {
    if sessions != [] {
      var n := |sessions| - 1;
      if Rewrites(sessions[..n], resolve, k.session) {
        var info :| info in sessions[..n] && info.session == k.session && !Skipped(info);
        assert info in sessions;
      }
      RunKeepsOthers(t, sessions[..n], resolve, k);
      assert sessions[n] in sessions;
      var before := RecomputeAll(t, sessions[..n], resolve);
      if k.session != sessions[n].session || k.provider != CLAUDE { OneOther(before, sessions[n], resolve, k); }
    }
  }

  /** Aggregate rows and rows without a session are never touched. */
  lemma AggregatesStay(t: Table, sessions: seq<SessionInfo>, resolve: string -> Option<Usage>, k: Key)
    requires k in t && k.session in {"", "codex-daily"}
    ensures RecomputeAll(t, sessions, resolve)[k] == t[k]
  {
    RunKeepsOthers(t, sessions, resolve, k);
  }

  /** A rewritten row carries the model of the last listing of its session, or else the model its
      transcript names. */
  lemma {:induction false} RunStampsModel(t: Table, sessions: seq<SessionInfo>, resolve: string -> Option<Usage>,
                                          k: Key, i: nat)
    requires k in t && k.provider == "claude" && k.session !in {"", "codex-daily"} && resolve(k.session).Some?
    requires i < |sessions| && sessions[i].session == k.session
    requires forall j | i < j < |sessions| :: sessions[j].session != k.session
    ensures RecomputeAll(t, sessions, resolve)[k].model
         == if sessions[i].model != "" then sessions[i].model else resolve(k.session).value.model
  {
    hide ScaleRow, Rewritten;
    var n := |sessions| - 1;
    var before := RecomputeAll(t, sessions[..n], resolve);
    if i == n {
      var corrected := resolve(k.session).value;
      ShareLaw(before, k.session, corrected, if sessions[n].model == "" then corrected.model else sessions[n].model, k);
    } else {
      RunStampsModel(t, sessions[..n], resolve, k, i);
      OneOther(before, sessions[n], resolve, k);
    }
  }

  /** The session's costs would not change if it were rewritten now. */
  ghost predicate Settled(t: Table, session: string, corrected: Usage) {
    forall k <- SessionKeys(t, session, CLAUDE) :: Rewritten(t, session, corrected, "")[k].cost == t[k].cost
  }

  lemma RewriteSettles(t: Table, session: string, corrected: Usage, model: string)
    requires corrected.cost >= 0.0
    ensures Settled(Rewritten(t, session, corrected, model), session, corrected)
  {
    hide Rewritten, ScaleRow;
    forall k | k in SessionKeys(Rewritten(t, session, corrected, model), session, CLAUDE)
      ensures Rewritten(Rewritten(t, session, corrected, model), session, corrected, "")[k].cost
           == Rewritten(t, session, corrected, model)[k].cost
    {
      RewriteTwice(t, session, corrected, model, "", k);
    }
  }

  lemma SettledFrame(t: Table, u: Table, session: string, corrected: Usage)
    requires Settled(t, session, corrected) && t.Keys == u.Keys
    requires forall k <- SessionKeys(t, session, CLAUDE) :: t[k].cost == u[k].cost
    ensures Settled(u, session, corrected)
  {
    hide Part, Times, Stored;
    SameRowsSameStored(t, u, session);
    assert SessionKeys(t, session, CLAUDE) == SessionKeys(u, session, CLAUDE);
  }

  lemma SettledStays(t: Table, session: string, corrected: Usage, model: string, k: Key)
    requires Settled(t, session, corrected) && k in t
    ensures Rewritten(t, session, corrected, model)[k].cost == t[k].cost
  {
    hide Part, Times, Stored;
    if k in SessionKeys(t, session, CLAUDE) {
      assert Rewritten(t, session, corrected, "")[k].cost == t[k].cost;
    }
  }

  /** Every session of the list is settled once the list has been worked off. */
  lemma {:induction false} RunSettles(t: Table, sessions: seq<SessionInfo>, resolve: string -> Option<Usage>,
      session: string)
    requires Rewrites(sessions, resolve, session) && resolve(session).value.cost >= 0.0
    ensures Settled(RecomputeAll(t, sessions, resolve), session, resolve(session).value)
  {
    hide ScaleRow, Settled, Rewritten;
    var n := |sessions| - 1;
    var before := RecomputeAll(t, sessions[..n], resolve);
    var info := sessions[n];
    if info.session == session {
      var corrected := resolve(session).value;
      RewriteSettles(before, session, corrected, if info.model == "" then corrected.model else info.model);
    } else {
      var other :| other in sessions && other.session == session && !Skipped(other);
      assert other in sessions[..n];
      RunSettles(t, sessions[..n], resolve, session);
      forall k | k in SessionKeys(before, session, CLAUDE)
        ensures before[k].cost == RecomputeOne(before, info, resolve)[k].cost
      {
        OneOther(before, info, resolve, k);
      }
      SettledFrame(before, RecomputeOne(before, info, resolve), session, resolve(session).value);
    }
  }

  /** Running the whole fixup again, over any listing of the same sessions, changes no cost. */
  lemma {:induction false} RunAgainChangesNothing(t: Table, first: seq<SessionInfo>, again: seq<SessionInfo>,
                                                  resolve: string -> Option<Usage>, k: Key)
    requires k in t && forall info <- again :: exists i <- first :: i.session == info.session
    requires forall info <- first :: resolve(info.session).Some? ==> resolve(info.session).value.cost >= 0.0
    ensures var once := RecomputeAll(t, first, resolve); RecomputeAll(once, again, resolve)[k].cost == once[k].cost
  {
    hide ScaleRow, Rewritten, Settled;
    var once := RecomputeAll(t, first, resolve);
    if again != [] {
      var n := |again| - 1;
      var info := again[n];
      assert info in again;
      forall i | i in again[..n] ensures exists j <- first :: j.session == i.session { assert i in again; }
      RunAgainChangesNothing(t, first, again[..n], resolve, k);
      var before := RecomputeAll(once, again[..n], resolve);
      if k.session == info.session && k.provider == CLAUDE && !Skipped(info) && resolve(info.session).Some? {
        var i :| i in first && i.session == info.session;
        var corrected := resolve(info.session).value;
        RunSettles(t, first, resolve, info.session);
        forall j | j in SessionKeys(once, info.session, CLAUDE) ensures once[j].cost == before[j].cost {
          RunAgainChangesNothing(t, first, again[..n], resolve, j);
        }
        SettledFrame(once, before, info.session, corrected);
        SettledStays(before, info.session, corrected, if info.model == "" then corrected.model else info.model, k);
      } else if k.session != info.session || k.provider != CLAUDE {
        OneOther(before, info, resolve, k);
      }
    }
  }

  // ----- the command -----

  predicate Listed(t: Table, info: SessionInfo) {
    exists k <- t.Keys :: k.provider == CLAUDE && k.session == info.session && t[k].model == info.model
  }

  /** The distinct sessions and models of the table, in an order the query leaves open. */
  method SelectSessions(rows: Table) returns (sessions: seq<SessionInfo>)
    ensures forall info :: info in sessions <==> Listed(rows, info)
    ensures forall i, j | 0 <= i < j < |sessions| :: sessions[i] != sessions[j]
  {
    var rest := set k | k in rows && k.provider == CLAUDE :: SessionInfo(k.session, rows[k].model);
    assert forall info :: info in rest <==> Listed(rows, info);
    ghost var all := rest;
    sessions := [];
    while rest != {}
      invariant rest <= all && forall info :: info in sessions <==> info in all && info !in rest
      invariant forall i, j | 0 <= i < j < |sessions| :: sessions[i] != sessions[j]
      decreases |rest|
    {
      var info :| info in rest;
      sessions := sessions + [info];
      rest := rest - {info};
    }
  }

  predicate Ascending(ks: seq<Key>) { forall i, j | 0 <= i < j < |ks| :: ks[i].date < ks[j].date }

  lemma {:induction false} HasFirst(ks: set<Key>)
    requires ks != {}
    ensures exists k :: k in ks && forall j <- ks :: k.date <= j.date
    decreases |ks|
  {
    var k :| k in ks;
    if ks != {k} {
      HasFirst(ks - {k});
      var m :| m in ks - {k} && forall j <- ks - {k} :: m.date <= j.date;
      var r := if m.date <= k.date then m else k;
      forall j | j in ks ensures r.date <= j.date { assert j == k || j in ks - {k}; }
    }
  }

  /** The rows of a session by date. */
  method LoadRows(rows: Table, session: string) returns (ks: seq<Key>)
    ensures Ascending(ks) && forall k :: k in ks <==> k in SessionKeys(rows, session, CLAUDE)
  {
    var rest := SessionKeys(rows, session, CLAUDE);
    ghost var all := rest;
    ks := [];
    while rest != {}
      invariant rest <= all && forall k :: k in ks <==> k in all && k !in rest
      invariant Ascending(ks) && forall i, k | 0 <= i < |ks| && k in rest :: ks[i].date < k.date
      decreases |rest|
    {
      HasFirst(rest);
      var first :| first in rest && forall k <- rest :: first.date <= k.date;
      ks := ks + [first];
      rest := rest - {first};
    }
  }

  function KeySet(ks: seq<Key>): set<Key> { set k | k in ks }

  method TotalCost(rows: Table, ks: seq<Key>) returns (total: real)
    requires Ascending(ks) && forall k <- ks :: k in rows
    ensures total == Sum(rows, KeySet(ks), Cost)
  {
    total := 0.0;
    var i := 0;
    assert KeySet(ks[..0]) == {};
    while i < |ks|
      invariant i <= |ks|
      invariant total == Sum(rows, KeySet(ks[..i]), Cost)
    {
      assert ks[..i + 1] == ks[..i] + [ks[i]];
      assert KeySet(ks[..i + 1]) - {ks[i]} == KeySet(ks[..i]);
      SumPick(rows, KeySet(ks[..i + 1]), ks[i], Cost);
      total := total + rows[ks[i]].cost;
      i := i + 1;
    }
    assert ks[..i] == ks;
  }

  lemma LastByDate(t: Table, session: string, ks: seq<Key>, i: nat)
    requires Ascending(ks) && i < |ks| && forall k :: k in ks <==> k in SessionKeys(t, session, CLAUDE)
    ensures IsLast(SessionKeys(t, session, CLAUDE), ks[i]) <==> i == |ks| - 1
  {
    assert ks[i] in ks && ks[|ks| - 1] in ks;
  }

  method RewriteRows(db: DB, session: string, ks: seq<Key>, oldTotal: real, corrected: Usage, model: string)
    requires Ascending(ks) && forall k :: k in ks <==> k in SessionKeys(db.rows, session, CLAUDE)
    requires oldTotal == Stored(db.rows, session)
    modifies db
    ensures db.rows == Rewritten(old(db.rows), session, corrected, model)
  {
    hide ScaleRow, Stored, IsLast;
    ghost var t := db.rows;
    var i := 0;
    while i < |ks|
      invariant i <= |ks|
      invariant db.rows.Keys == t.Keys
      invariant forall k <- t.Keys ::
                  db.rows[k] == if k in ks[..i] then Rewritten(t, session, corrected, model)[k] else t[k]
    {
      var k := ks[i];
      assert k in ks && k !in ks[..i];
      assert ks[..i + 1] == ks[..i] + [k];
      LastByDate(t, session, ks, i);
      var scaled := ScaleRow(corrected, oldTotal, db.rows[k].cost, i == |ks| - 1, model);
      ScaledModel(corrected, oldTotal, db.rows[k].cost, i == |ks| - 1, model);
      assert k == Key(k.date, session, CLAUDE);
      db.UpsertUsageWithProvider(k.date, session, CLAUDE, model, scaled);
      i := i + 1;
    }
    assert ks[..i] == ks;
  }

  lemma ScaledModel(corrected: Usage, oldTotal: real, cost: real, isLast: bool, model: string)
    ensures ScaleRow(corrected, oldTotal, cost, isLast, model).model == model
  {
    hide Part, Times;
  }

  /** The fixup over all sessions. A dry run only counts. */
  method RunRecompute(db: DB, resolve: string -> Option<Usage>, dryRun: bool)
    returns (resolved: nat, skipped: nat, ghost sessions: seq<SessionInfo>)
    modifies db
    ensures forall info :: info in sessions <==> Listed(old(db.rows), info)
    ensures resolved + skipped == |sessions|
    ensures dryRun ==> db.rows == old(db.rows)
    ensures !dryRun ==> db.rows == RecomputeAll(old(db.rows), sessions, resolve)
    ensures !dryRun ==> forall session |
              && session !in {"", "codex-daily"} && resolve(session).Some?
              && SessionKeys(old(db.rows), session, CLAUDE) != {} ::
              Stored(db.rows, session) == resolve(session).value.cost
  {
    hide Rewritten, ScaleRow, Stored, IsLast;
    ghost var t := db.rows;
    var listed := SelectSessions(db.rows);
    sessions := listed;
    resolved, skipped := 0, 0;
    var i := 0;
    while i < |listed|
      invariant i <= |listed| && resolved + skipped == i
      invariant db.rows == if dryRun then t else RecomputeAll(t, listed[..i], resolve)
    {
      var info := listed[i];
      assert listed[..i + 1][..i] == listed[..i];
      i := i + 1;
      if info.session == "" || info.session == "codex-daily" { skipped := skipped + 1; continue; }
      var usage := resolve(info.session);
      if usage.None? { skipped := skipped + 1; continue; }
      resolved := resolved + 1;
      var ks := LoadRows(db.rows, info.session);
      if |ks| == 0 {
        NoRowsNoChange(db.rows, info.session, usage.value, if info.model == "" then usage.value.model else info.model);
        continue;
      }
      var oldTotal := TotalCost(db.rows, ks);
      StoredIsTotal(db.rows, info.session, ks);
      var model := info.model;
      if model == "" { model := usage.value.model; }
      if dryRun { continue; }
      RewriteRows(db, info.session, ks, oldTotal, usage.value, model);
    }
    assert listed[..i] == listed;
    if !dryRun {
      forall session |
        session !in {"", "codex-daily"} && resolve(session).Some? && SessionKeys(t, session, CLAUDE) != {}
        ensures Stored(db.rows, session) == resolve(session).value.cost
      {
        var k :| k in SessionKeys(t, session, CLAUDE);
        assert SessionInfo(session, t[k].model) in sessions;
        RunCorrectsCosts(t, sessions, resolve, session);
      }
    }
  }

  lemma StoredIsTotal(t: Table, session: string, ks: seq<Key>)
    requires forall k :: k in ks <==> k in SessionKeys(t, session, CLAUDE)
    ensures KeySet(ks) == SessionKeys(t, session, CLAUDE)
    ensures Stored(t, session) == Sum(t, KeySet(ks), Cost)
  {
    assert KeySet(ks) == SessionKeys(t, session, CLAUDE);
  }

  lemma NoRowsNoChange(t: Table, session: string, corrected: Usage, model: string)
    requires SessionKeys(t, session, CLAUDE) == {}
    ensures Rewritten(t, session, corrected, model) == t
  {
  }
}
