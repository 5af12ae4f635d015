/** Token usage of a session transcript, read incrementally through a cache of running
    totals, against a full scan of the file. */
module UsageReader {
  import opened Options
  import opened Lines
  import opened Domain

  datatype Entry = Entry(id: string, model: string, input: int, output: int, cacheRead: int, cacheWrite: int)

  datatype Pricing = Pricing(input: real, output: real, cacheRead: real, cacheWrite: real)

  const NoUsage := Usage(0, 0, 0, 0, 0.0, "")

  /** Running totals and the message ids already counted. */
  datatype Totals = Totals(usage: Usage, seen: set<string>)

  const Zero := Totals(NoUsage, {})

  predicate Counted(e: Entry) { e.input != 0 || e.output != 0 }

  function EntryCost(e: Entry, p: Pricing): real {
    e.input as real / 1000000.0 * p.input + e.output as real / 1000000.0 * p.output
    + e.cacheRead as real / 1000000.0 * p.cacheRead + e.cacheWrite as real / 1000000.0 * p.cacheWrite
  }

  function AddUsage(u: Usage, e: Entry, price: string -> Pricing): Usage {
    Usage(u.input + e.input, u.output + e.output, u.cacheRead + e.cacheRead, u.cacheWrite + e.cacheWrite,
          if e.model != "" then u.cost + EntryCost(e, price(e.model)) else u.cost,
          if e.model != "" then e.model else u.model)
  }

  /** One entry: uncounted ones and repeated message ids change nothing. */
  function Add(t: Totals, e: Entry, price: string -> Pricing): Totals {
    if !Counted(e) || (e.id != "" && e.id in t.seen) then t
    else Totals(AddUsage(t.usage, e, price), if e.id != "" then t.seen + {e.id} else t.seen)
  }

  function AddAll(t: Totals, es: seq<Entry>, price: string -> Pricing): Totals {
    if es == [] then t else Add(AddAll(t, es[..|es| - 1], price), es[|es| - 1], price)
  }

  /** The reference: a scan of the whole file from nothing. */
  function FullScan(b: Bytes, decode: Bytes -> Option<Entry>, price: string -> Pricing): Usage {
    AddAll(Zero, Entries(b, decode), price).usage
  }

  lemma {:induction false} AddAllAppend(t: Totals, a: seq<Entry>, b: seq<Entry>, price: string -> Pricing)
    ensures AddAll(t, a + b, price) == AddAll(AddAll(t, a, price), b, price)
  {
    if b == [] {
      assert a + b == a;
    } else {
      assert (a + b)[..|a + b| - 1] == a + b[..|b| - 1];
      AddAllAppend(t, a, b[..|b| - 1], price);
    }
  }

  // ----- the cache -----

  datatype CacheEntry = CacheEntry(totals: Totals, offset: nat, size: nat, mtime: int)

  datatype Hit = Miss | Unchanged | Resume

  function Classify(c: Option<CacheEntry>, size: nat, mtime: int): Hit {
    if c.None? || size < c.value.size then Miss
    else if size == c.value.size then (if c.value.mtime == mtime then Unchanged else Miss)
    else Resume
  }

  /** A file is left unread while its size and time are those of the entry, and resumed when it grew. */
  lemma HitExactly(c: Option<CacheEntry>, size: nat, mtime: int)
    ensures Classify(c, size, mtime).Unchanged? <==> c.Some? && c.value.size == size && c.value.mtime == mtime
    ensures Classify(c, size, mtime).Resume? <==> c.Some? && c.value.size < size
  {
  }

  /** One visit to a file: what it held at the stat, and what had been appended by the time
      the scanner met its end. */
  datatype Visit = Missing | Visit(at: Bytes, mtime: int, late: Bytes)

  /** One call as a function of the cached entry. */
  function Call(c: Option<CacheEntry>, v: Visit, decode: Bytes -> Option<Entry>, price: string -> Pricing)
    : (Usage, Option<CacheEntry>)
  {
    match v
    case Missing => (NoUsage, c)
    case Visit(at, mtime, late) =>
      var hit := Classify(c, |at|, mtime);
      if hit.Unchanged? then (c.value.totals.usage, c)
      else
        var start := if hit.Resume? then c.value.totals else Zero;
        var offset := if hit.Resume? then c.value.offset else 0;
        var t := AddAll(start, Entries(From(at + late, offset), decode), price);
        (t.usage, Some(CacheEntry(t, |at|, |at|, mtime)))
  }

  function Run(c: Option<CacheEntry>, vs: seq<Visit>, decode: Bytes -> Option<Entry>, price: string -> Pricing)
    : seq<Usage>
    decreases |vs|
  {
    if vs == [] then []
    else
      var (u, c') := Call(c, vs[0], decode, price);
      [u] + Run(c', vs[1..], decode, price)
  }

  function Scanned(v: Visit): Bytes {
    match v
    case Missing => []
    case Visit(at, _, late) => at + late
  }

  /** No counted entry without a message id: what the next resume may read twice. */
  predicate Identified(es: seq<Entry>) {
    forall e <- es :: Counted(e) ==> e.id != ""
  }

  /** How a file may have changed since it was last scanned: grown by whole lines, the entries
      appended during that scan being identified; untouched; smaller; or of the same size
      with a new modification time. */
  predicate Follows(prev: Visit, v: Visit, decode: Bytes -> Option<Entry>)
    requires prev.Visit? && v.Visit?
  {
    || (|prev.at| < |v.at| && Scanned(prev) <= v.at && Aligned(prev.at) && Aligned(Scanned(prev))
        && Identified(Entries(prev.late, decode)))
    || (v.at == prev.at && v.mtime == prev.mtime && prev.late == [] && v.late == [])
    || |v.at| < |prev.at|
    || (|v.at| == |prev.at| && v.mtime != prev.mtime)
  }

  predicate GoodHistory(last: Visit, vs: seq<Visit>, decode: Bytes -> Option<Entry>)
    decreases |vs|
  {
    vs == [] ||
    if vs[0].Missing? then GoodHistory(last, vs[1..], decode)
    else (last.Visit? ==> Follows(last, vs[0], decode)) && GoodHistory(vs[0], vs[1..], decode)
  }

  /** The cached entry is the full scan of the last visit, resumable at its stat size. */
  predicate Coherent(c: Option<CacheEntry>, last: Visit, decode: Bytes -> Option<Entry>, price: string -> Pricing) {
    match last
    case Missing => c.None?
    case Visit(at, mtime, late) =>
      c == Some(CacheEntry(AddAll(Zero, Entries(at + late, decode), price), |at|, |at|, mtime))
  }

  lemma {:induction false} SeenGrows(t: Totals, es: seq<Entry>, price: string -> Pricing)
    ensures t.seen <= AddAll(t, es, price).seen
    ensures forall e <- es :: Counted(e) && e.id != "" ==> e.id in AddAll(t, es, price).seen
  {
    if es != [] {
      SeenGrows(t, es[..|es| - 1], price);
      assert es == es[..|es| - 1] + [es[|es| - 1]];
    }
  }

  /** Entries whose counted members are all known already change nothing. */
  lemma {:induction false} Reread(t: Totals, es: seq<Entry>, price: string -> Pricing)
    requires forall e <- es :: Counted(e) ==> e.id != "" && e.id in t.seen
    ensures AddAll(t, es, price) == t
  {
    if es != [] {
      var init := es[..|es| - 1];
      forall e <- init ensures Counted(e) ==> e.id != "" && e.id in t.seen { assert e in es; }
      Reread(t, init, price);
    }
  }

  /** A resume from the last visit's stat size equals the full scan of the grown file. */
  lemma ResumeAgrees(prev: Visit, v: Visit, decode: Bytes -> Option<Entry>, price: string -> Pricing)
    requires prev.Visit? && v.Visit? && Scanned(prev) <= v.at && Aligned(prev.at) && Aligned(Scanned(prev))
    requires Identified(Entries(prev.late, decode))
    ensures var t, rest := AddAll(Zero, Entries(Scanned(prev), decode), price), From(Scanned(v), |prev.at|);
            AddAll(t, Entries(rest, decode), price) == AddAll(Zero, Entries(Scanned(v), decode), price)
  {
    ResumeSplits(prev, v, decode, price);
    var before, again := Entries(prev.at, decode), Entries(prev.late, decode);
    var t := AddAll(Zero, before + again, price);
    AddAllAppend(Zero, before, again, price);
    SeenGrows(AddAll(Zero, before, price), again, price);
    Reread(t, again, price);
  }

  /** What a resume scans again and what it scans for the first time. */
  lemma ResumeSplits(prev: Visit, v: Visit, decode: Bytes -> Option<Entry>, price: string -> Pricing)
    requires prev.Visit? && v.Visit? && Scanned(prev) <= v.at && Aligned(prev.at) && Aligned(Scanned(prev))
    ensures var before, again := Entries(prev.at, decode), Entries(prev.late, decode);
            var added := Entries(Scanned(v)[|Scanned(prev)|..], decode);
            var t := AddAll(Zero, before + again, price);
            && Entries(Scanned(prev), decode) == before + again
            && AddAll(t, Entries(From(Scanned(v), |prev.at|), decode), price)
               == AddAll(AddAll(t, again, price), added, price)
            && AddAll(Zero, Entries(Scanned(v), decode), price) == AddAll(t, added, price)
  {
    hide Add, Entries, Aligned;
    var before, again := Entries(prev.at, decode), Entries(prev.late, decode);
    var rest := Scanned(v)[|Scanned(prev)|..];
    var t := AddAll(Zero, before + again, price);
    EntriesAppend(prev.at, prev.late, decode);
    assert Scanned(v) == Scanned(prev) + rest;
    EntriesAppend(Scanned(prev), rest, decode);
    assert From(Scanned(v), |prev.at|) == prev.late + rest;
    SuffixAligned(prev.at, prev.late);
    EntriesAppend(prev.late, rest, decode);
    AddAllAppend(t, again, Entries(rest, decode), price);
    AddAllAppend(Zero, before + again, Entries(rest, decode), price);
  }

  lemma CallAgrees(c: Option<CacheEntry>, last: Visit, v: Visit, decode: Bytes -> Option<Entry>,
                   price: string -> Pricing)
    requires Coherent(c, last, decode, price) && v.Visit?
    requires last.Visit? ==> Follows(last, v, decode)
    ensures var (u, c') := Call(c, v, decode, price);
            u == FullScan(Scanned(v), decode, price) && Coherent(c', v, decode, price)
  {
    var hit := Classify(c, |v.at|, v.mtime);
    if hit.Resume? {
      ResumeAgrees(last, v, decode, price);
    } else if hit.Unchanged? {
      assert v == last;
    } else {
      assert From(Scanned(v), 0) == Scanned(v);
    }
  }

  lemma MissingAgrees(c: Option<CacheEntry>, decode: Bytes -> Option<Entry>, price: string -> Pricing)
    ensures Call(c, Missing, decode, price) == (FullScan([], decode, price), c)
  {
    assert LinesOf([]) == [];
  }

  /** Over every history of such changes each call returns what a fresh scan of the whole file
      returns. */
  lemma {:induction false} HistoryAgrees(c: Option<CacheEntry>, last: Visit, vs: seq<Visit>,
      decode: Bytes -> Option<Entry>, price: string -> Pricing)
    requires Coherent(c, last, decode, price) && GoodHistory(last, vs, decode)
    ensures var us := Run(c, vs, decode, price);
            |us| == |vs| && forall i | 0 <= i < |vs| :: us[i] == FullScan(Scanned(vs[i]), decode, price)
    decreases |vs|
  {
    hide Call, Follows, Coherent, FullScan, Scanned;
    if vs != [] {
      var (u, c') := Call(c, vs[0], decode, price);
      if vs[0].Missing? {
        MissingAgrees(c, decode, price);
        NothingScanned();
        HistoryAgrees(c, last, vs[1..], decode, price);
      } else {
        CallAgrees(c, last, vs[0], decode, price);
        HistoryAgrees(c', vs[0], vs[1..], decode, price);
      }
      var rest := Run(c', vs[1..], decode, price);
      assert Run(c, vs, decode, price) == [u] + rest;
      forall i | 0 < i < |vs| ensures rest[i - 1] == FullScan(Scanned(vs[i]), decode, price) {
        assert vs[i] == vs[1..][i - 1];
      }
    }
  }

  lemma NothingScanned()
    ensures Scanned(Missing) == []
  {
  }

  // ----- the condition on re-read entries is exact -----

  function Tokens(t: Totals): int { t.usage.input + t.usage.output }

  predicate NonNegative(es: seq<Entry>) {
    forall e <- es :: e.input >= 0 && e.output >= 0
  }

  /** What a batch adds depends only on the ids known before it. */
  lemma {:induction false} GainDependsOnSeen(t: Totals, t': Totals, es: seq<Entry>, price: string -> Pricing)
    requires t.seen == t'.seen
    ensures AddAll(t, es, price).seen == AddAll(t', es, price).seen
    ensures Tokens(AddAll(t, es, price)) - Tokens(t) == Tokens(AddAll(t', es, price)) - Tokens(t')
  {
    if es != [] { GainDependsOnSeen(t, t', es[..|es| - 1], price); }
  }

  lemma {:induction false} RereadGains(t: Totals, es: seq<Entry>, price: string -> Pricing)
    requires NonNegative(es)
    requires forall e <- es :: Counted(e) && e.id != "" ==> e.id in t.seen
    ensures AddAll(t, es, price).seen == t.seen
    ensures Tokens(AddAll(t, es, price)) >= Tokens(t)
    ensures !Identified(es) ==> Tokens(AddAll(t, es, price)) > Tokens(t)
  {
    if es != [] {
      var init, last := es[..|es| - 1], es[|es| - 1];
      assert es == init + [last] && last in es;
      assert forall e <- init :: e in es;
      RereadGains(t, init, price);
      hide AddAll;
      assert Identified(es) <== Identified(init) && (Counted(last) ==> last.id != "");
    }
  }

  /** With non-negative tokens, the call that follows a growing visit equals the full scan
      exactly when every counted entry appended during that visit has a message id. */
  lemma ResumeExact(prev: Visit, v: Visit, decode: Bytes -> Option<Entry>, price: string -> Pricing)
    requires prev.Visit? && v.Visit? && |prev.at| < |v.at|
    requires Scanned(prev) <= v.at && Aligned(prev.at) && Aligned(Scanned(prev))
    requires NonNegative(Entries(prev.late, decode))
    ensures var c := Call(None, prev, decode, price).1;
            Call(c, v, decode, price).0 == FullScan(Scanned(v), decode, price)
            <==> Identified(Entries(prev.late, decode))
  {
    hide Add, AddAll, Entries, Aligned, NonNegative;
    assert From(Scanned(prev), 0) == Scanned(prev);
    assert Call(None, prev, decode, price).1
           == Some(CacheEntry(AddAll(Zero, Entries(Scanned(prev), decode), price), |prev.at|, |prev.at|, prev.mtime));
    ResumeSplits(prev, v, decode, price);
    if Identified(Entries(prev.late, decode)) {
      ResumeAgrees(prev, v, decode, price);
    } else {
      var before, again := Entries(prev.at, decode), Entries(prev.late, decode);
      var added := Entries(Scanned(v)[|Scanned(prev)|..], decode);
      var t := AddAll(Zero, before + again, price);
      AddAllAppend(Zero, before, again, price);
      SeenGrows(AddAll(Zero, before, price), again, price);
      RereadGains(t, again, price);
      GainDependsOnSeen(AddAll(t, again, price), t, added, price);
    }
  }
}
