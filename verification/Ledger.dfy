/** The daily_usage table: one row per date, session and provider. Costs are exact reals. */
module Ledger {
  import opened Domain

  datatype Key = Key(date: int, session: string, provider: string)

  type Table = map<Key, Usage>

  const CLAUDE := "claude"

  /** The summable columns. */
  datatype Column = Cost | Input | Output | CacheRead | CacheWrite

  function Cell(u: Usage, c: Column): real {
    match c
    case Cost => u.cost
    case Input => u.input as real
    case Output => u.output as real
    case CacheRead => u.cacheRead as real
    case CacheWrite => u.cacheWrite as real
  }

  ghost function Sum(t: Table, ks: set<Key>, c: Column): real
    requires ks <= t.Keys
  {
    if ks == {} then 0.0
    else
      var k :| k in ks;
      Cell(t[k], c) + Sum(t, ks - {k}, c)
  }

  /** The order in which a sum picks its rows does not matter. */
  lemma {:induction false} SumPick(t: Table, ks: set<Key>, k: Key, c: Column)
    requires k in ks && ks <= t.Keys
    ensures Sum(t, ks, c) == Cell(t[k], c) + Sum(t, ks - {k}, c)
    decreases |ks|
  {
    hide Cell;
    var p :| p in ks && Sum(t, ks, c) == Cell(t[p], c) + Sum(t, ks - {p}, c);
    if p != k {
      SumPick(t, ks - {p}, k, c);
      SumPick(t, ks - {k}, p, c);
      assert ks - {p} - {k} == ks - {k} - {p};
    }
  }

  lemma {:induction false} SumFrame(t: Table, u: Table, ks: set<Key>, c: Column)
    requires ks <= t.Keys && ks <= u.Keys
    requires forall k <- ks :: Cell(t[k], c) == Cell(u[k], c)
    ensures Sum(t, ks, c) == Sum(u, ks, c)
    decreases |ks|
  {
    hide Cell;
    if ks != {} {
      var k :| k in ks;
      SumPick(t, ks, k, c);
      SumPick(u, ks, k, c);
      SumFrame(t, u, ks - {k}, c);
    }
  }

  lemma {:induction false} SumSign(t: Table, ks: set<Key>, c: Column)
    requires ks <= t.Keys
    requires forall k <- ks :: Cell(t[k], c) >= 0.0
    ensures Sum(t, ks, c) >= 0.0
    decreases |ks|
  {
    hide Cell;
    if ks != {} {
      var k :| k in ks;
      SumPick(t, ks, k, c);
      SumSign(t, ks - {k}, c);
    }
  }

  function Times(x: real, y: real): real { x * y }

  lemma Spread(f: real, x: real, y: real)
    ensures Times(f, x + y) == Times(f, x) + Times(f, y) && Times(f, 0.0) == 0.0
  {
  }

  /** If every row of one table is `factor` times the other's, so are the sums. */
  lemma {:induction false} SumTimes(t: Table, u: Table, ks: set<Key>, c: Column, factor: real)
    requires ks <= t.Keys && ks <= u.Keys
    requires forall k <- ks :: Cell(u[k], c) == Times(factor, Cell(t[k], c))
    ensures Sum(u, ks, c) == Times(factor, Sum(t, ks, c))
    decreases |ks|
  {
    hide Cell, Times;
    if ks == {} {
      Spread(factor, 0.0, 0.0);
    } else {
      var k :| k in ks;
      SumPick(t, ks, k, c);
      SumPick(u, ks, k, c);
      SumTimes(t, u, ks - {k}, c, factor);
      Spread(factor, Cell(t[k], c), Sum(t, ks - {k}, c));
    }
  }

  /** If every row loses less than one, the sum loses less than the number of rows. */
  lemma {:induction false} SumLosing(t: Table, u: Table, ks: set<Key>, c: Column, d: Column)
    requires ks <= t.Keys && ks <= u.Keys && ks != {}
    requires forall k <- ks :: Cell(t[k], c) - 1.0 < Cell(u[k], d) <= Cell(t[k], c)
    ensures Sum(t, ks, c) - |ks| as real < Sum(u, ks, d) <= Sum(t, ks, c)
    decreases |ks|
  {
    hide Cell;
    var k :| k in ks;
    SumPick(t, ks, k, c);
    SumPick(u, ks, k, d);
    if ks != {k} { SumLosing(t, u, ks - {k}, c, d); }
    assert |ks| == |ks - {k}| + 1;
  }

  /** Go's conversion of a float to an int truncates toward zero. */
  function Trunc(x: real): (n: int)
    ensures x >= 0.0 ==> x - 1.0 < n as real <= x
    ensures x <= 0.0 ==> x <= n as real < x + 1.0
  {
    if x >= 0.0 then x.Floor else -((-x).Floor)
  }

  /** A token count scaled and truncated. */
  function Part(n: int, ratio: real): int { Trunc(Times(n as real, ratio)) }

  lemma PartWithin(n: int, ratio: real)
    requires n >= 0 && 0.0 <= ratio <= 1.0
    ensures 0 <= Part(n, ratio) <= n
    ensures Times(n as real, ratio) - 1.0 < Part(n, ratio) as real <= Times(n as real, ratio)
  {
    hide Times, Trunc;
    Within(n as real, ratio);
  }

  lemma Within(x: real, r: real)
    requires x >= 0.0 && 0.0 <= r <= 1.0
    ensures 0.0 <= Times(x, r) <= x
  {
  }

  function Scaled(u: Usage, ratio: real, cost: real, model: string): Usage {
    Usage(Part(u.input, ratio), Part(u.output, ratio), Part(u.cacheRead, ratio), Part(u.cacheWrite, ratio), cost, model)
  }

  /** The rows of one session, and those of its other days. */
  function SessionKeys(t: Table, session: string, provider: string): set<Key> {
    set k | k in t && k.session == session && k.provider == provider
  }

  function OtherDays(t: Table, session: string, date: int, provider: string): set<Key> {
    set k | k in t && k.session == session && k.provider == provider && k.date != date
  }

  /** All that is stored for a session. */
  ghost function Stored(t: Table, session: string): real {
    Sum(t, SessionKeys(t, session, CLAUDE), Cost)
  }

  class DB {
    var rows: Table

    constructor ()
      ensures rows == map[]
    {
      rows := map[];
    }

    method UpsertUsageWithProvider(date: int, session: string, provider: string, model: string, u: Usage)
      modifies this
      ensures rows == old(rows)[Key(date, session, provider) := u.(model := model)]
    {
      rows := rows[Key(date, session, provider) := u.(model := model)];
    }

    method SessionCostExcludingDateWithProvider(session: string, date: int, provider: string) returns (total: real)
      ensures total == Sum(rows, OtherDays(rows, session, date, provider), Cost)
    {
      var rest := OtherDays(rows, session, date, provider);
      total := 0.0;
      ghost var all := rest;
      while rest != {}
        invariant rest <= all <= rows.Keys
        invariant total + Sum(rows, rest, Cost) == Sum(rows, all, Cost)
        decreases |rest|
      {
        var k :| k in rest;
        SumPick(rows, rest, k, Cost);
        total := total + rows[k].cost;
        rest := rest - {k};
      }
    }
  }
}
