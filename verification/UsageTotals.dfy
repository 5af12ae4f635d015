/** What the running totals of a transcript add up to: every message once, each model at its own price. */
module UsageTotals {
  import opened Options
  import opened Lines
  import opened Domain
  import opened UsageReader

  datatype Column = Input | Output | CacheRead | CacheWrite

  function Tokens(e: Entry, c: Column): int {
    match c
    case Input => e.input
    case Output => e.output
    case CacheRead => e.cacheRead
    case CacheWrite => e.cacheWrite
  }

  /** An entry is billed when it has tokens of its own and is the first with its message id, if it has
      one. */
  predicate Billed(es: seq<Entry>, i: int) {
    && 0 <= i < |es| && (es[i].input != 0 || es[i].output != 0)
    && (es[i].id == "" || forall j | 0 <= j < i && (es[j].input != 0 || es[j].output != 0) :: es[j].id != es[i].id)
  }

  /** One column, summed over the billed entries. */
  function Total(es: seq<Entry>, c: Column): int {
    if es == [] then 0
    else
      var n := |es| - 1;
      Total(es[..n], c) + if Billed(es, n) then Tokens(es[n], c) else 0
  }

  /** ... and over those of one model. */
  function TotalOf(es: seq<Entry>, c: Column, model: string): int {
    if es == [] then 0
    else
      var n := |es| - 1;
      TotalOf(es[..n], c, model) + if Billed(es, n) && es[n].model == model then Tokens(es[n], c) else 0
  }

  lemma {:induction false} SeenMeans(es: seq<Entry>, price: string -> Pricing, id: string)
    ensures id in AddAll(Zero, es, price).seen
       <==> id != "" && exists j :: 0 <= j < |es| && (es[j].input != 0 || es[j].output != 0) && es[j].id == id
  {
    hide AddUsage;
    if es != [] {
      var n := |es| - 1;
      SeenMeans(es[..n], price, id);
      SeenMeans(es[..n], price, es[n].id);
      if j :| 0 <= j < n && (es[j].input != 0 || es[j].output != 0) && es[j].id == id { assert es[..n][j] == es[j]; }
    }
  }

  /** One more entry is added exactly when it is billed. */
  lemma LastAdded(es: seq<Entry>, price: string -> Pricing)
    requires es != []
    ensures var n := |es| - 1;
            var before := AddAll(Zero, es[..n], price).usage;
            AddAll(Zero, es, price).usage == if Billed(es, n) then AddUsage(before, es[n], price) else before
  {
    hide AddUsage, AddAll;
    var n := |es| - 1;
    SeenMeans(es[..n], price, es[n].id);
    assert forall j | 0 <= j < n :: es[..n][j] == es[j];
    OneMore(es, price);
  }

  lemma OneMore(es: seq<Entry>, price: string -> Pricing)
    requires es != []
    ensures AddAll(Zero, es, price) == Add(AddAll(Zero, es[..|es| - 1], price), es[|es| - 1], price)
  {
  }

  /** Each column is the sum of that column over the billed entries. */
  lemma {:induction false} ColumnsAreTotals(es: seq<Entry>, price: string -> Pricing)
    ensures var u := AddAll(Zero, es, price).usage;
            && u.input == Total(es, Input) && u.output == Total(es, Output)
            && u.cacheRead == Total(es, CacheRead) && u.cacheWrite == Total(es, CacheWrite)
  {
    hide AddAll, Billed, EntryCost;
    if es == [] {
      NothingAdded(price);
    } else {
      ColumnsAreTotals(es[..|es| - 1], price);
      LastAdded(es, price);
    }
  }

  lemma NothingAdded(price: string -> Pricing)
    ensures AddAll(Zero, [], price).usage == Usage(0, 0, 0, 0, 0.0, "")
  {
  }

  /** A million tokens at a price. */
  function Priced(tokens: int, perMillion: real): real { tokens as real / 1000000.0 * perMillion }

  lemma PricedAdds(a: int, b: int, p: real)
    ensures Priced(a + b, p) == Priced(a, p) + Priced(b, p) && Priced(0, p) == 0.0
  {
    var x, y := a as real / 1000000.0, b as real / 1000000.0;
    assert (a + b) as real / 1000000.0 == x + y;
    assert (x + y) * p == x * p + y * p;
  }

  /** The bill of one model. */
  function BillOf(es: seq<Entry>, model: string, p: Pricing): real {
    Priced(TotalOf(es, Input, model), p.input) + Priced(TotalOf(es, Output, model), p.output)
    + Priced(TotalOf(es, CacheRead, model), p.cacheRead) + Priced(TotalOf(es, CacheWrite, model), p.cacheWrite)
  }

  function Bill(es: seq<Entry>, models: seq<string>, price: string -> Pricing): real {
    if models == [] then 0.0
    else
      var m := models[|models| - 1];
      Bill(es, models[..|models| - 1], price) + BillOf(es, m, price(m))
  }

  lemma NoBillOf(model: string, p: Pricing)
    ensures BillOf([], model, p) == 0.0
  {
    PricedAdds(0, 0, p.input);
    PricedAdds(0, 0, p.output);
    PricedAdds(0, 0, p.cacheRead);
    PricedAdds(0, 0, p.cacheWrite);
  }

  lemma BillOfGrows(es: seq<Entry>, model: string, p: Pricing)
    requires es != []
    ensures var n := |es| - 1;
            BillOf(es, model, p)
            == BillOf(es[..n], model, p) + if Billed(es, n) && es[n].model == model then EntryCost(es[n], p) else 0.0
  {
    hide Billed, Priced;
    var n := |es| - 1;
    var e, init := es[n], es[..n];
    PricedAdds(TotalOf(init, Input, model), e.input, p.input);
    PricedAdds(TotalOf(init, Output, model), e.output, p.output);
    PricedAdds(TotalOf(init, CacheRead, model), e.cacheRead, p.cacheRead);
    PricedAdds(TotalOf(init, CacheWrite, model), e.cacheWrite, p.cacheWrite);
    CostIsPriced(e, p);
  }

  lemma CostIsPriced(e: Entry, p: Pricing)
    ensures EntryCost(e, p) == Priced(e.input, p.input) + Priced(e.output, p.output) + Priced(e.cacheRead, p.cacheRead)
                               + Priced(e.cacheWrite, p.cacheWrite)
  {
  }

  /** Every model at most once. */
  predicate Distinct(models: seq<string>) { forall i, j | 0 <= i < j < |models| :: models[i] != models[j] }

  lemma {:induction false} BillGrows(es: seq<Entry>, models: seq<string>, price: string -> Pricing)
    requires es != [] && Distinct(models)
    ensures var n := |es| - 1;
            Bill(es, models, price)
            == Bill(es[..n], models, price)
               + if Billed(es, n) && es[n].model in models then EntryCost(es[n], price(es[n].model)) else 0.0
  {
    hide Billed, BillOf, EntryCost;
    if models != [] {
      var k := |models| - 1;
      BillGrows(es, models[..k], price);
      BillOfGrows(es, models[k], price(models[k]));
      assert models == models[..k] + [models[k]];
      assert models[k] !in models[..k];
    }
  }

  lemma {:induction false} NoBill(models: seq<string>, price: string -> Pricing)
    ensures Bill([], models, price) == 0.0
  {
    hide BillOf;
    if models != [] {
      NoBill(models[..|models| - 1], price);
      NoBillOf(models[|models| - 1], price(models[|models| - 1]));
    }
  }

  /** The cost is the bill of each model for the tokens of its own entries; entries without a model cost
      nothing. */
  lemma {:induction false} CostIsBill(es: seq<Entry>, models: seq<string>, price: string -> Pricing)
    requires Distinct(models) && "" !in models && forall e <- es :: e.model == "" || e.model in models
    ensures AddAll(Zero, es, price).usage.cost == Bill(es, models, price)
  {
    hide AddAll, Billed, EntryCost, Bill, Distinct;
    if es == [] {
      NothingAdded(price);
      NoBill(models, price);
    } else {
      var n := |es| - 1;
      assert es[n] in es && forall e <- es[..n] :: e in es;
      CostIsBill(es[..n], models, price);
      LastAdded(es, price);
      BillGrows(es, models, price);
    }
  }

  lemma {:induction false} OneModel(es: seq<Entry>, c: Column, model: string)
    requires forall e <- es :: e.model == model
    ensures TotalOf(es, c, model) == Total(es, c)
  {
    hide Billed;
    if es != [] {
      assert es[|es| - 1] in es && forall e <- es[..|es| - 1] :: e in es;
      OneModel(es[..|es| - 1], c, model);
    }
  }

  /** A transcript of one model costs its totals at the prices of that model. */
  lemma ScanCosts(b: Bytes, decode: Bytes -> Option<Entry>, price: string -> Pricing, model: string)
    requires model != "" && forall e <- Entries(b, decode) :: e.model == model
    ensures var u, p := FullScan(b, decode, price), price(model);
            u.cost == u.input as real / 1000000.0 * p.input + u.output as real / 1000000.0 * p.output
                      + u.cacheRead as real / 1000000.0 * p.cacheRead + u.cacheWrite as real / 1000000.0 * p.cacheWrite
  {
    hide Entries, AddAll, Total, TotalOf;
    var es := Entries(b, decode);
    CostIsBill(es, [model], price);
    ColumnsAreTotals(es, price);
    OneModel(es, Input, model);
    OneModel(es, Output, model);
    OneModel(es, CacheRead, model);
    OneModel(es, CacheWrite, model);
    assert Bill(es, [model], price) == Bill(es, [], price) + BillOf(es, model, price(model)) by {
      assert [model][..0] == [];
    }
  }

  /** The model on show is that of the last billed entry that has one. */
  lemma {:induction false} ModelIsLast(es: seq<Entry>, price: string -> Pricing, k: nat)
    requires Billed(es, k) && es[k].model != ""
    requires forall j | k < j < |es| && Billed(es, j) :: es[j].model == ""
    ensures AddAll(Zero, es, price).usage.model == es[k].model
  {
    hide AddAll;
    var n := |es| - 1;
    LastAdded(es, price);
    if k < n {
      forall j | 0 <= j < n && Billed(es[..n], j) ensures Billed(es, j) { SamePrefix(es, n, j); }
      SamePrefix(es, n, k);
      ModelIsLast(es[..n], price, k);
    }
  }

  lemma SamePrefix(es: seq<Entry>, n: nat, j: nat)
    requires j < n <= |es|
    ensures Billed(es[..n], j) <==> Billed(es, j)
  {
    assert forall i | 0 <= i <= j :: es[..n][i] == es[i];
  }
}
