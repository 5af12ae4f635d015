/** Persisting a session's cumulative usage as one row per day. */
module Persist {
  import opened Domain
  import opened Ledger

  /** One row to persist: the cumulative usage of a session on some day. */
  datatype Event = Event(date: int, session: string, usage: Usage)

  /** The part of the cumulative usage that belongs to today. */
  function Ratio(cost: real, prev: real): (r: real)
    ensures 0.0 <= r <= 1.0
  {
    if cost > 0.0 && prev > 0.0 then
      var r := (cost - prev) / cost;
      Shares(cost, prev);
      if r < 0.0 then 0.0 else r
    else 1.0
  }

  lemma Shares(cost: real, prev: real)
    requires cost > 0.0 && prev > 0.0
    ensures (cost - prev) / cost <= 1.0
  {
    var r := (cost - prev) / cost;
    assert r * cost == cost - prev;
    MoreThanOnce(r, cost);
  }

  lemma MoreThanOnce(r: real, cost: real)
    requires cost > 0.0
    ensures r > 1.0 ==> r * cost > cost
  {
    if r > 1.0 { assert (r - 1.0) * cost > 0.0; }
  }

  function Delta(u: Usage, prev: real): Usage {
    Scaled(u, Ratio(u.cost, prev), if u.cost - prev < 0.0 then 0.0 else u.cost - prev, u.model)
  }

  ghost function Earlier(t: Table, e: Event): real { Sum(t, OtherDays(t, e.session, e.date, CLAUDE), Cost) }

  ghost function PersistOne(t: Table, e: Event): Table {
    t[Key(e.date, e.session, CLAUDE) := Delta(e.usage, Earlier(t, e))]
  }

  ghost function PersistAll(t: Table, es: seq<Event>): Table {
    if es == [] then t else PersistOne(PersistAll(t, es[..|es| - 1]), es[|es| - 1])
  }

  /** No row of a day claims more tokens than the session has in all, nor fewer than none. */
  lemma TokensWithinTotal(u: Usage, prev: real, c: Column)
    requires !c.Cost? && Cell(u, c) >= 0.0
    ensures 0.0 <= Cell(Delta(u, prev), c) <= Cell(u, c)
  {
    hide Ratio, Part;
    var r := Ratio(u.cost, prev);
    match c {
      case Input => PartWithin(u.input, r);
      case Output => PartWithin(u.output, r);
      case CacheRead => PartWithin(u.cacheRead, r);
      case CacheWrite => PartWithin(u.cacheWrite, r);
    }
  }

  /** Of each token column a day gets the share that it has of the cost, to within a token: everything
      while the other days hold nothing or there is no cost, and nothing once they hold all of it. */
  lemma DayShare(u: Usage, prev: real, c: Column)
    requires !c.Cost? && Cell(u, c) >= 0.0
    ensures Delta(u, prev).cost == if u.cost > prev then u.cost - prev else 0.0
    ensures Delta(u, prev).model == u.model
    ensures u.cost <= 0.0 || prev <= 0.0 ==> Cell(Delta(u, prev), c) == Cell(u, c)
    ensures 0.0 < u.cost <= prev ==> Cell(Delta(u, prev), c) == 0.0
    ensures 0.0 < prev < u.cost ==>
              var part := Cell(Delta(u, prev), c);
              part * u.cost <= Cell(u, c) * (u.cost - prev) < part * u.cost + u.cost
  {
    hide Ratio, Part;
    var r := Ratio(u.cost, prev);
    RatioIs(u.cost, prev);
    var n := match c
      case Input => u.input
      case Output => u.output
      case CacheRead => u.cacheRead
      case CacheWrite => u.cacheWrite;
    PartWithin(n, r);
    WholeOrNone(n);
    if 0.0 < prev < u.cost { Widened(Part(n, r) as real, n as real, r, u.cost, u.cost - prev); }
  }

  lemma RatioIs(cost: real, prev: real)
    ensures var r := Ratio(cost, prev);
            && (cost <= 0.0 || prev <= 0.0 ==> r == 1.0)
            && (0.0 < cost <= prev ==> r == 0.0)
            && (0.0 < prev < cost ==> r * cost == cost - prev)
  {
    if 0.0 < cost && 0.0 < prev {
      var r := (cost - prev) / cost;
      assert r * cost == cost - prev;
      Sign(r, cost);
    }
  }

  lemma Sign(r: real, cost: real)
    requires cost > 0.0
    ensures r > 0.0 <==> r * cost > 0.0
    ensures r < 0.0 <==> r * cost < 0.0
  {
    if r < 0.0 { assert (-r) * cost > 0.0; }
  }

  lemma WholeOrNone(n: int)
    requires n >= 0
    ensures Part(n, 1.0) == n && Part(n, 0.0) == 0
  {
  }

  lemma Widened(part: real, whole: real, r: real, cost: real, day: real)
    requires cost > 0.0 && Times(r, cost) == day && Times(whole, r) - 1.0 < part <= Times(whole, r)
    ensures Times(cost, part) <= Times(whole, day) < Times(cost, part) + cost
  {
    hide Times;
    Regrouped(whole, r, cost);
    Scale(part, Times(whole, r), cost);
  }

  lemma Regrouped(a: real, b: real, c: real)
    ensures Times(c, Times(a, b)) == Times(a, Times(b, c))
  {
  }

  lemma Scale(x: real, y: real, cost: real)
    requires cost > 0.0 && x <= y < x + 1.0
    ensures Times(cost, x) <= Times(cost, y) < Times(cost, x) + cost
  {
    hide Times;
    Spread(cost, x, y - x);
    assert x + (y - x) == y;
    Gap(y - x, cost);
  }

  lemma Gap(gap: real, cost: real)
    requires cost > 0.0 && 0.0 <= gap < 1.0
    ensures 0.0 <= Times(cost, gap) < cost
  {
    assert (1.0 - gap) * cost > 0.0;
  }

  /** What one persist leaves stored for its session, for any table whatever. */
  lemma StoredAfterOne(t: Table, e: Event)
    ensures var after := Stored(PersistOne(t, e), e.session);
            && after == (if e.usage.cost >= Earlier(t, e) then e.usage.cost else Earlier(t, e))
            && (after == e.usage.cost <==> Earlier(t, e) <= e.usage.cost)
  {
    var t' := PersistOne(t, e);
    var today := Key(e.date, e.session, CLAUDE);
    var others := OtherDays(t, e.session, e.date, CLAUDE);
    assert SessionKeys(t', e.session, CLAUDE) == others + {today};
    SumPick(t', others + {today}, today, Cost);
    assert others + {today} - {today} == others;
    SumFrame(t, t', others, Cost);
  }

  lemma StoredElsewhere(t: Table, e: Event, session: string)
    requires session != e.session
    ensures Stored(PersistOne(t, e), session) == Stored(t, session)
  {
    var t' := PersistOne(t, e);
    assert SessionKeys(t', session, CLAUDE) == SessionKeys(t, session, CLAUDE);
    SumFrame(t, t', SessionKeys(t, session, CLAUDE), Cost);
  }

  /** Persisting the same usage again changes nothing. */
  lemma PersistTwice(t: Table, e: Event)
    ensures PersistOne(PersistOne(t, e), e) == PersistOne(t, e)
  {
    var t' := PersistOne(t, e);
    var others := OtherDays(t, e.session, e.date, CLAUDE);
    assert OtherDays(t', e.session, e.date, CLAUDE) == others;
    SumFrame(t, t', others, Cost);
  }

  // ----- runs -----

  predicate NonNegative(t: Table, session: string) {
    forall k <- SessionKeys(t, session, CLAUDE) :: t[k].cost >= 0.0
  }

  /** The cumulative cost of a session never decreases along the run. */
  predicate Cumulative(es: seq<Event>, session: string) {
    forall i, j | 0 <= i < j < |es| && es[i].session == session && es[j].session == session ::
      es[i].usage.cost <= es[j].usage.cost
  }

  /** The last cumulative cost seen for the session, or what was stored before. */
  function Latest(es: seq<Event>, session: string, before: real): real {
    if es == [] then before
    else if es[|es| - 1].session == session then es[|es| - 1].usage.cost
    else Latest(es[..|es| - 1], session, before)
  }

  lemma {:induction false} LatestBelow(es: seq<Event>, session: string, before: real, cost: real)
    requires before <= cost && forall e <- es :: e.session == session ==> e.usage.cost <= cost
    ensures Latest(es, session, before) <= cost
  {
    if es != [] && es[|es| - 1].session != session { LatestBelow(es[..|es| - 1], session, before, cost); }
  }

  lemma EarlierBelowStored(t: Table, e: Event)
    requires NonNegative(t, e.session)
    ensures Earlier(t, e) <= Stored(t, e.session)
  {
    var all, others := SessionKeys(t, e.session, CLAUDE), OtherDays(t, e.session, e.date, CLAUDE);
    var today := Key(e.date, e.session, CLAUDE);
    if today in t {
      SumPick(t, all, today, Cost);
      assert all - {today} == others;
    } else {
      assert all == others;
    }
  }

  lemma OneKeepsNonNegative(t: Table, e: Event, session: string)
    requires NonNegative(t, session)
    ensures NonNegative(PersistOne(t, e), session)
  {
  }

  /** Over every run whose cumulative cost never decreases, on any mix of dates and interleaved with
      any other sessions, the rows of a session add up to its latest cumulative cost. */
  lemma {:induction false} CostsAddUp(t: Table, es: seq<Event>, session: string)
    requires NonNegative(t, session) && Cumulative(es, session)
    requires forall e <- es :: e.session == session ==> Stored(t, session) <= e.usage.cost
    ensures Stored(PersistAll(t, es), session) == Latest(es, session, Stored(t, session))
    ensures NonNegative(PersistAll(t, es), session)
  {
    hide PersistOne, Stored, NonNegative, Earlier;
    if es != [] {
      var n := |es| - 1;
      var e := es[n];
      CostsAddUp(t, es[..n], session);
      var before := PersistAll(t, es[..n]);
      OneKeepsNonNegative(before, e, session);
      if e.session == session {
        StoredAfterOne(before, e);
        EarlierBelowStored(before, e);
        LatestBelow(es[..n], session, Stored(t, session), e.usage.cost);
      } else {
        StoredElsewhere(before, e, session);
      }
    }
  }

  /** A session seen for the first time starts from nothing. */
  lemma NewSessionAddsUp(t: Table, es: seq<Event>, session: string)
    requires SessionKeys(t, session, CLAUDE) == {}
    requires Cumulative(es, session) && forall e <- es :: e.session == session ==> e.usage.cost >= 0.0
    ensures Stored(PersistAll(t, es), session) == Latest(es, session, 0.0)
  {
    hide PersistAll;
    CostsAddUp(t, es, session);
  }

  /** Only today's rows of the persisted sessions are touched. */
  lemma {:induction false} OnlyTheirRows(t: Table, es: seq<Event>, k: Key)
    requires forall e <- es :: k != Key(e.date, e.session, CLAUDE)
    ensures k in PersistAll(t, es) <==> k in t
    ensures k in t ==> PersistAll(t, es)[k] == t[k]
  {
    hide Earlier, Delta;
    if es != [] { OnlyTheirRows(t, es[..|es| - 1], k); }
  }

  // ----- the command -----

  predicate Persisted(a: Agent, perAgent: map<string, Usage>) {
    && (a.harness == "" || a.harness == CLAUDE)
    && a.projDir != "" && a.session != ""
    && a.target in perAgent && perAgent[a.target].output != 0
  }

  function EventsOf(today: int, agents: seq<Agent>, perAgent: map<string, Usage>): seq<Event> {
    if agents == [] then []
    else
      var a := agents[|agents| - 1];
      EventsOf(today, agents[..|agents| - 1], perAgent)
      + if Persisted(a, perAgent) then [Event(today, a.session, perAgent[a.target])] else []
  }

  /** An entry is persisted for exactly the Claude agents of a known session that have used any output,
      with the usage read for them. */
  lemma {:induction false} EventsMean(today: int, agents: seq<Agent>, perAgent: map<string, Usage>, e: Event)
    ensures e in EventsOf(today, agents, perAgent)
       <==> exists a <- agents ::
              && a.harness in {"", "claude"} && a.projDir != "" && a.session != ""
              && a.target in perAgent && perAgent[a.target].output != 0
              && e == Event(today, a.session, perAgent[a.target])
  {
    if agents != [] {
      var n := |agents| - 1;
      EventsMean(today, agents[..n], perAgent, e);
      assert agents == agents[..n] + [agents[n]];
    }
  }

  /** Collects the entries to persist. */
  method CollectEntries(today: int, agents: seq<Agent>, perAgent: map<string, Usage>) returns (entries: seq<Event>)
    ensures entries == EventsOf(today, agents, perAgent)
  {
    entries := [];
    var i := 0;
    while i < |agents|
      invariant i <= |agents|
      invariant entries == EventsOf(today, agents[..i], perAgent)
    {
      var a := agents[i];
      assert agents[..i + 1][..i] == agents[..i];
      i := i + 1;
      if a.harness != "" && a.harness != CLAUDE { continue; }
      if a.projDir == "" { continue; }
      if a.target !in perAgent || perAgent[a.target].output == 0 { continue; }
      if a.session == "" { continue; }
      entries := entries + [Event(today, a.session, perAgent[a.target])];
    }
    assert agents[..i] == agents;
  }

  method PersistEntry(db: DB, e: Event)
    modifies db
    ensures db.rows == PersistOne(old(db.rows), e)
  {
    hide Part;
    var prev := db.SessionCostExcludingDateWithProvider(e.session, e.date, CLAUDE);
    var ratio := 1.0;
    if e.usage.cost > 0.0 && prev > 0.0 {
      ratio := (e.usage.cost - prev) / e.usage.cost;
      if ratio < 0.0 { ratio := 0.0; }
    }
    var u := e.usage;
    var delta := Usage(Part(u.input, ratio), Part(u.output, ratio), Part(u.cacheRead, ratio), Part(u.cacheWrite, ratio),
                       u.cost - prev, u.model);
    if delta.cost < 0.0 { delta := delta.(cost := 0.0); }
    db.UpsertUsageWithProvider(e.date, e.session, CLAUDE, u.model, delta);
  }

  method PersistUsage(db: DB, today: int, agents: seq<Agent>, perAgent: map<string, Usage>)
    modifies db
    ensures db.rows == PersistAll(old(db.rows), EventsOf(today, agents, perAgent))
  {
    hide PersistOne;
    var entries := CollectEntries(today, agents, perAgent);
    var i := 0;
    while i < |entries|
      invariant i <= |entries|
      invariant db.rows == PersistAll(old(db.rows), entries[..i])
    {
      assert entries[..i + 1][..i] == entries[..i];
      PersistEntry(db, entries[i]);
      i := i + 1;
    }
    assert entries[..i] == entries;
  }
}
