/** The cache object and the reading loop of UsageReader, with the seen-id sets as the mutable
    objects they are. */
module UsageCacheModule {
  import opened Options
  import opened Lines
  import opened UsageReader
  import opened Domain

  /** A mutable id set; whoever holds the reference may change it. */
  class IdSet {
    var ids: set<string>

    constructor ()
      ensures ids == {}
    {
      ids := {};
    }

    method Insert(id: string)
      modifies this
      ensures ids == old(ids) + {id}
    {
      ids := ids + {id};
    }
  }

  datatype Slot = Slot(usage: Usage, seenIDs: IdSet, offset: nat, size: nat, mtime: int)

  class UsageCache {
    var entries: map<string, Slot>

    constructor ()
      ensures entries == map[]
    {
      entries := map[];
    }

    ghost function Sets(): set<IdSet>
      reads this
    {
      set key <- entries :: entries[key].seenIDs
    }

    /** The cache as values. */
    ghost function View(): map<string, CacheEntry>
      reads this, Sets()
    {
      map key <- entries ::
        var e := entries[key];
        CacheEntry(Totals(e.usage, e.seenIDs.ids), e.offset, e.size, e.mtime)
    }

    ghost function Lookup(key: string): Option<CacheEntry>
      reads this, Sets()
    {
      if key in View() then Some(View()[key]) else None
    }

    /** A copy of the entry with an id set of its own, and how to use it. */
    method Fetch(key: string, size: nat, mtime: int) returns (slot: Slot, hit: Hit)
      ensures hit == Classify(Lookup(key), size, mtime)
      ensures fresh(slot.seenIDs)
      ensures !hit.Miss? ==> key in entries && slot == entries[key].(seenIDs := slot.seenIDs)
                             && slot.seenIDs.ids == entries[key].seenIDs.ids
    {
      if key !in entries || size < entries[key].size || (size == entries[key].size && mtime != entries[key].mtime) {
        var none := new IdSet();
        return Slot(NoUsage, none, 0, 0, 0), Miss;
      }
      var seen := new IdSet();
      var todo := entries[key].seenIDs.ids;
      while todo != {}
        invariant todo <= entries[key].seenIDs.ids
        invariant seen.ids == entries[key].seenIDs.ids - todo
        invariant fresh(seen) && seen !in Sets()
        modifies seen
        decreases todo
      {
        var id :| id in todo;
        seen.Insert(id);
        todo := todo - {id};
      }
      slot := entries[key].(seenIDs := seen);
      hit := if size == entries[key].size then Unchanged else Resume;
    }

    /** Stores an entry; its id set becomes the cache's. */
    method Store(key: string, slot: Slot)
      modifies this
      ensures entries == old(entries)[key := slot]
    {
      entries := entries[key := slot];
    }
  }

  /** A caller that fetches an entry and adds to its id set changes nothing in the cache. */
  method MutateFetched(cache: UsageCache, key: string, size: nat, mtime: int, id: string)
    ensures cache.entries == old(cache.entries) && cache.View() == old(cache.View())
  {
    var slot, hit := cache.Fetch(key, size, mtime);
    slot.seenIDs.Insert(id);
  }

  /** Counts one decoded entry. */
  method CountEntry(u0: Usage, seenIDs: IdSet, entry: Entry, price: string -> Pricing) returns (u: Usage)
    modifies seenIDs
    ensures Totals(u, seenIDs.ids) == Add(Totals(u0, old(seenIDs.ids)), entry, price)
  {
    u := u0;
    if entry.input == 0 && entry.output == 0 { return; }
    if entry.id != "" {
      if entry.id in seenIDs.ids { return; }
      seenIDs.Insert(entry.id);
    }
    var cost, model := u.cost, u.model;
    if entry.model != "" {
      model := entry.model;
      cost := cost + EntryCost(entry, price(entry.model));
    }
    u := Usage(u.input + entry.input, u.output + entry.output, u.cacheRead + entry.cacheRead,
               u.cacheWrite + entry.cacheWrite, cost, model);
  }

  /** The scanning loop: running totals and the id set are updated line by line. */
  method ScanLines(lines: seq<Bytes>, u0: Usage, seenIDs: IdSet, decode: Bytes -> Option<Entry>,
                   price: string -> Pricing)
    returns (u: Usage)
    modifies seenIDs
    ensures Totals(u, seenIDs.ids) == AddAll(Totals(u0, old(seenIDs.ids)), Decode(lines, decode), price)
  {
    u := u0;
    ghost var start := Totals(u, seenIDs.ids);
    var i := 0;
    while i < |lines|
      invariant i <= |lines|
      invariant Totals(u, seenIDs.ids) == AddAll(start, Decode(lines[..i], decode), price)
    {
      DecodeOneMore(lines, i, decode);
      AddAllAppend(start, Decode(lines[..i], decode), DecodeLine(lines[i], decode), price);
      i := i + 1;
      if lines[i - 1] == [] { continue; }
      var e := decode(lines[i - 1]);
      if e.None? { continue; }
      AddOne(Totals(u, seenIDs.ids), e.value, price);
      u := CountEntry(u, seenIDs, e.value, price);
    }
    assert lines[..i] == lines;
  }

  lemma AddOne(t: Totals, e: Entry, price: string -> Pricing)
    ensures AddAll(t, [e], price) == Add(t, e, price)
  {
    assert [e][..0] == [];
  }

  /** One read of a transcript: the stat, the resumed or full scan, and the new cache entry. */
  method ReadUsage(cache: UsageCache, key: string, v: Visit, decode: Bytes -> Option<Entry>, price: string -> Pricing)
    returns (u: Usage)
    modifies cache
    ensures u == Call(old(cache.Lookup(key)), v, decode, price).0
    ensures cache.Lookup(key) == Call(old(cache.Lookup(key)), v, decode, price).1
    ensures forall other | other != key :: cache.Lookup(other) == old(cache.Lookup(other))
  {
    if v.Missing? { return NoUsage; }
    var slot, hit := cache.Fetch(key, |v.at|, v.mtime);
    if hit.Unchanged? { return slot.usage; }
    u := NoUsage;
    var seenIDs := new IdSet();
    var startOffset := 0;
    if hit.Resume? {
      u := slot.usage;
      seenIDs := slot.seenIDs;
      startOffset := slot.offset;
    }
    u := ScanLines(LinesOf(From(v.at + v.late, startOffset)), u, seenIDs, decode, price);
    cache.Store(key, Slot(u, seenIDs, |v.at|, |v.at|, v.mtime));
  }
}
