/** From transcripts to the ledger: the costs read from a growing transcript, persisted on whatever
    days they are read, add up to the cost of the whole transcript. */
module Accounting {
  import opened Options
  import opened Lines
  import opened Domain
  import opened UsageReader
  import Ledger
  import Persist

  predicate NonNegativeEntry(e: Entry) { e.input >= 0 && e.output >= 0 && e.cacheRead >= 0 && e.cacheWrite >= 0 }

  ghost predicate NonNegativePrices(price: string -> Pricing) {
    forall m ::
      price(m).input >= 0.0 && price(m).output >= 0.0 && price(m).cacheRead >= 0.0 && price(m).cacheWrite >= 0.0
  }

  lemma Product(x: real, y: real)
    requires x >= 0.0 && y >= 0.0
    ensures x * y >= 0.0
  {
  }

  lemma EntryCostSign(e: Entry, p: Pricing)
    requires NonNegativeEntry(e) && p.input >= 0.0 && p.output >= 0.0 && p.cacheRead >= 0.0 && p.cacheWrite >= 0.0
    ensures EntryCost(e, p) >= 0.0
  {
    Product(e.input as real / 1000000.0, p.input);
    Product(e.output as real / 1000000.0, p.output);
    Product(e.cacheRead as real / 1000000.0, p.cacheRead);
    Product(e.cacheWrite as real / 1000000.0, p.cacheWrite);
  }

  lemma {:induction false} TotalsGrow(t: Totals, es: seq<Entry>, price: string -> Pricing)
    requires NonNegativePrices(price) && forall e <- es :: NonNegativeEntry(e)
    ensures AddAll(t, es, price).usage.cost >= t.usage.cost
    ensures AddAll(t, es, price).usage.output >= t.usage.output
  {
    hide EntryCost;
    if es != [] {
      var e := es[|es| - 1];
      assert e in es;
      TotalsGrow(t, es[..|es| - 1], price);
      EntryCostSign(e, price(e.model));
    }
  }

  /** Readable lines of non-negative entries. */
  predicate Sound(b: Bytes, decode: Bytes -> Option<Entry>) { forall e <- Entries(b, decode) :: NonNegativeEntry(e) }

  /** A transcript that grew by whole lines costs no less and counts no fewer tokens. */
  lemma LongerCostsMore(a: Bytes, b: Bytes, decode: Bytes -> Option<Entry>, price: string -> Pricing)
    requires a <= b && Aligned(a) && Sound(b, decode) && NonNegativePrices(price)
    ensures FullScan(a, decode, price).cost <= FullScan(b, decode, price).cost
    ensures FullScan(a, decode, price).output <= FullScan(b, decode, price).output
  {
    hide AddAll, Entries;
    var added := b[|a|..];
    assert b == a + added;
    EntriesAppend(a, added, decode);
    assert forall e <- Entries(added, decode) :: e in Entries(b, decode);
    AddAllAppend(Zero, Entries(a, decode), Entries(added, decode), price);
    TotalsGrow(AddAll(Zero, Entries(a, decode), price), Entries(added, decode), price);
  }

  lemma ScanSign(b: Bytes, decode: Bytes -> Option<Entry>, price: string -> Pricing)
    requires Sound(b, decode) && NonNegativePrices(price)
    ensures FullScan(b, decode, price).cost >= 0.0 && FullScan(b, decode, price).output >= 0
  {
    TotalsGrow(Zero, Entries(b, decode), price);
  }

  // ----- polling -----

  /** An agent whose usage is persisted at all. */
  predicate Billed(a: Agent) { (a.harness == "" || a.harness == Ledger.CLAUDE) && a.projDir != "" && a.session != "" }

  /** What the dashboard persists for one agent when these usages are read on these days: reads
      without output tokens are skipped. */
  function Polls(us: seq<Usage>, days: seq<int>, a: Agent): seq<Persist.Event>
    requires |us| == |days|
  {
    if us == [] then []
    else
      var n := |us| - 1;
      Polls(us[..n], days[..n], a) + Persist.EventsOf(days[n], [a], map[a.target := us[n]])
  }

  lemma OnePoll(day: int, a: Agent, u: Usage)
    requires Billed(a)
    ensures Persist.EventsOf(day, [a], map[a.target := u])
         == if u.output != 0 then [Persist.Event(day, a.session, u)] else []
  {
    assert [a][..0] == [];
  }

  /** Neither cost nor output ever falls. */
  predicate Rising(us: seq<Usage>) {
    && (forall u <- us :: u.cost >= 0.0 && u.output >= 0)
    && (forall i, j | 0 <= i < j < |us| :: us[i].cost <= us[j].cost && us[i].output <= us[j].output)
  }

  /** Events of one session whose costs lie between zero and a bound. */
  predicate Bounded(es: seq<Persist.Event>, session: string, bound: real) {
    forall e <- es :: e.session == session && 0.0 <= e.usage.cost <= bound
  }

  lemma OneMoreEvent(es: seq<Persist.Event>, e: Persist.Event)
    requires Bounded(es, e.session, e.usage.cost) && Persist.Cumulative(es, e.session) && e.usage.cost >= 0.0
    ensures Bounded(es + [e], e.session, e.usage.cost) && Persist.Cumulative(es + [e], e.session)
  {
    forall i, j | 0 <= i < j < |es + [e]| ensures (es + [e])[i].usage.cost <= (es + [e])[j].usage.cost
                                               || (es + [e])[i].session != e.session {
      assert es[i] in es;
      if j < |es| { assert (es + [e])[j] == es[j] && es[j] in es; }
    }
  }

  lemma BoundGrows(es: seq<Persist.Event>, session: string, b: real, c: real)
    requires Bounded(es, session, b) && b <= c
    ensures Bounded(es, session, c)
  {
  }

  function Cost(us: seq<Usage>): real { if us == [] then 0.0 else us[|us| - 1].cost }

  lemma RisingInit(us: seq<Usage>)
    requires Rising(us) && us != []
    ensures var n := |us| - 1; Rising(us[..n]) && 0.0 <= Cost(us[..n]) <= us[n].cost && us[n].output >= 0
    ensures var n := |us| - 1; n > 0 ==> us[n - 1].output <= us[n].output && us[n - 1].output >= 0
  {
    var n := |us| - 1;
    assert us[n] in us;
    assert forall u <- us[..n] :: u in us;
    if n > 0 { assert us[..n][n - 1] == us[n - 1] && us[n - 1] in us; }
  }

  lemma {:induction false} PollsRise(us: seq<Usage>, days: seq<int>, a: Agent)
    requires |us| == |days| && Rising(us) && Billed(a)
    ensures var es := Polls(us, days, a);
            && Bounded(es, a.session, Cost(us)) && Persist.Cumulative(es, a.session)
            && (es == [] <==> us == [] || us[|us| - 1].output == 0)
            && (es != [] ==> es[|es| - 1].usage == us[|us| - 1])
  {
    hide Rising, Bounded, Persist.EventsOf, Persist.Cumulative, Billed;
    if us == [] {
      NothingPolled(a.session);
    } else {
      var n := |us| - 1;
      RisingInit(us);
      PollsRise(us[..n], days[..n], a);
      OnePoll(days[n], a, us[n]);
      var before := Polls(us[..n], days[..n], a);
      BoundGrows(before, a.session, Cost(us[..n]), us[n].cost);
      if us[n].output == 0 {
        assert before + [] == before;
      } else {
        OneMoreEvent(before, Persist.Event(days[n], a.session, us[n]));
      }
    }
  }

  lemma NothingPolled(session: string)
    ensures Bounded([], session, 0.0) && Persist.Cumulative([], session)
  {
  }

  lemma LatestOf(es: seq<Persist.Event>, session: string)
    requires forall e <- es :: e.session == session
    ensures Persist.Latest(es, session, 0.0) == if es == [] then 0.0 else es[|es| - 1].usage.cost
  {
    if es != [] { assert es[|es| - 1] in es; }
  }

  /** Each time the transcript was read it had grown by whole lines, or not at all. */
  predicate Growing(vs: seq<Visit>) {
    && (forall v <- vs :: v.Visit?)
    && forall i, j | 0 <= i < j < |vs| :: Aligned(Scanned(vs[i])) && Scanned(vs[i]) <= Scanned(vs[j])
  }

  lemma ReadsRise(vs: seq<Visit>, decode: Bytes -> Option<Entry>, price: string -> Pricing)
    requires Growing(vs) && GoodHistory(Missing, vs, decode) && NonNegativePrices(price)
    requires forall v <- vs :: Sound(Scanned(v), decode)
    ensures var us := Run(None, vs, decode, price);
            && |us| == |vs| && Rising(us)
            && forall i | 0 <= i < |vs| :: us[i] == FullScan(Scanned(vs[i]), decode, price)
  {
    hide FullScan, Sound, Run, GoodHistory, Scanned;
    HistoryAgrees(None, Missing, vs, decode, price);
    var us := Run(None, vs, decode, price);
    forall i | 0 <= i < |us| ensures us[i].cost >= 0.0 && us[i].output >= 0 { ScanSign(Scanned(vs[i]), decode, price); }
    forall i, j | 0 <= i < j < |us| ensures us[i].cost <= us[j].cost && us[i].output <= us[j].output {
      LongerCostsMore(Scanned(vs[i]), Scanned(vs[j]), decode, price);
    }
  }

  /** However often and on whatever days a growing transcript is read through the cache and persisted,
      the session's rows add up to the cost of the transcript as last read; as long as it counts no
      output tokens nothing is stored. */
  lemma LedgerHoldsTranscriptCost(t: Ledger.Table, vs: seq<Visit>, days: seq<int>, a: Agent,
                                  decode: Bytes -> Option<Entry>, price: string -> Pricing)
    requires vs != [] && |vs| == |days| && Growing(vs) && GoodHistory(Missing, vs, decode)
    requires NonNegativePrices(price) && forall v <- vs :: Sound(Scanned(v), decode)
    requires Billed(a) && Ledger.SessionKeys(t, a.session, Ledger.CLAUDE) == {}
    ensures |Run(None, vs, decode, price)| == |days|
    ensures var u := FullScan(Scanned(vs[|vs| - 1]), decode, price);
            var after := Persist.PersistAll(t, Polls(Run(None, vs, decode, price), days, a));
            Ledger.Stored(after, a.session) == if u.output == 0 then 0.0 else u.cost
  {
    hide FullScan, Sound, Run, GoodHistory, Growing, Scanned, Persist.PersistAll, Ledger.Stored, Polls, Rising;
    ReadsRise(vs, decode, price);
    var us := Run(None, vs, decode, price);
    PollsRise(us, days, a);
    var es := Polls(us, days, a);
    assert forall e <- es :: e.session == a.session && e.usage.cost >= 0.0;
    LatestOf(es, a.session);
    Persist.NewSessionAddsUp(t, es, a.session);
  }
}
