/** Files as byte sequences, and the lines a scanner takes from them. */
module Lines {
  import opened Options

  newtype byte = x: int | 0 <= x < 256

  type Bytes = seq<byte>

  const NEWLINE: byte := 10
  const RETURN: byte := 13

  /** Position of the first newline, or the length when there is none. */
  function LineEnd(b: Bytes): (i: nat)
    ensures i <= |b|
    ensures i < |b| ==> b[i] == NEWLINE
  {
    if b == [] || b[0] == NEWLINE then 0 else 1 + LineEnd(b[1..])
  }

  function DropReturn(b: Bytes): Bytes {
    if b != [] && b[|b| - 1] == RETURN then b[..|b| - 1] else b
  }

  /** The lines of a file, an unterminated last one included. */
  function LinesOf(b: Bytes): seq<Bytes>
    decreases |b|
  {
    if b == [] then []
    else
      var i := LineEnd(b);
      [DropReturn(b[..i])] + if i < |b| then LinesOf(b[i + 1..]) else []
  }

  /** Nothing, or only whole lines. */
  predicate Aligned(b: Bytes) { b == [] || b[|b| - 1] == NEWLINE }

  lemma {:induction false} LinesAppend(a: Bytes, b: Bytes)
    requires Aligned(a)
    ensures LinesOf(a + b) == LinesOf(a) + LinesOf(b)
    decreases |a|
  {
    hide LinesOf, LineEnd, DropReturn;
    if a == [] {
      NoLines();
      assert a + b == b && [] + LinesOf(b) == LinesOf(b);
    } else {
      LineEndPrefix(a, b);
      var i := LineEnd(a);
      var rest := a[i + 1..];
      assert (a + b)[..i] == a[..i];
      assert (a + b)[i + 1..] == rest + b;
      LinesStep(a);
      LinesStep(a + b);
      LinesAppend(rest, b);
      ConsAppend(DropReturn(a[..i]), LinesOf(rest), LinesOf(b));
    }
  }

  lemma NoLines()
    ensures LinesOf([]) == []
  {
  }

  lemma ConsAppend<T>(h: T, x: seq<T>, y: seq<T>)
    ensures [h] + (x + y) == ([h] + x) + y
  {
  }

  lemma LinesStep(b: Bytes)
    requires b != [] && LineEnd(b) < |b|
    ensures LinesOf(b) == [DropReturn(b[..LineEnd(b)])] + LinesOf(b[LineEnd(b) + 1..])
  {
  }

  lemma {:induction false} LineEndPrefix(a: Bytes, b: Bytes)
    requires a != [] && Aligned(a)
    ensures LineEnd(a) < |a| && LineEnd(a + b) == LineEnd(a)
    decreases |a|
  {
    if a[0] != NEWLINE {
      assert (a + b)[1..] == a[1..] + b;
      LineEndPrefix(a[1..], b);
    }
  }

  /** The entries of some lines: empty and undecodable lines are skipped. */
  function Decode<E>(lines: seq<Bytes>, decode: Bytes -> Option<E>): seq<E> {
    if lines == [] then []
    else DecodeLine(lines[0], decode) + Decode(lines[1..], decode)
  }

  function DecodeLine<E>(line: Bytes, decode: Bytes -> Option<E>): seq<E> {
    if line == [] || decode(line).None? then [] else [decode(line).value]
  }

  lemma {:induction false} DecodeAppend<E>(a: seq<Bytes>, b: seq<Bytes>, decode: Bytes -> Option<E>)
    ensures Decode(a + b, decode) == Decode(a, decode) + Decode(b, decode)
  {
    if a == [] {
      assert a + b == b;
    } else {
      assert (a + b)[1..] == a[1..] + b;
      DecodeAppend(a[1..], b, decode);
    }
  }

  lemma DecodeOneMore<E>(lines: seq<Bytes>, k: nat, decode: Bytes -> Option<E>)
    requires k < |lines|
    ensures Decode(lines[..k + 1], decode) == Decode(lines[..k], decode) + DecodeLine(lines[k], decode)
  {
    assert lines[..k + 1] == lines[..k] + [lines[k]];
    DecodeAppend(lines[..k], [lines[k]], decode);
  }

  /** All entries of a file. */
  function Entries<E>(b: Bytes, decode: Bytes -> Option<E>): seq<E> {
    Decode(LinesOf(b), decode)
  }

  /** Appending to whole lines appends entries. */
  lemma EntriesAppend<E>(a: Bytes, b: Bytes, decode: Bytes -> Option<E>)
    requires Aligned(a)
    ensures Entries(a + b, decode) == Entries(a, decode) + Entries(b, decode)
  {
    LinesAppend(a, b);
    DecodeAppend(LinesOf(a), LinesOf(b), decode);
  }

  /** One reading of a file: what it held at the stat, and what had been appended by the time the
      scanner met its end. */
  datatype Reading = Reading(at: Bytes, late: Bytes) {
    function All(): Bytes { at + late }
  }

  /** The file has grown by whole lines since it was read. */
  predicate Grown(u: Reading, v: Reading) {
    |u.at| < |v.at| && u.All() <= v.at && Aligned(u.at) && Aligned(u.All())
  }

  lemma GrownIsLonger(u: Reading, v: Reading)
    requires Grown(u, v)
    ensures |u.at| < |v.at| && |u.All()| <= |v.All()|
  {
  }

  /** A scan that resumes at the old stat reads again what was appended during the last one. */
  lemma GrownEntries<E>(u: Reading, v: Reading, decode: Bytes -> Option<E>)
    requires Grown(u, v)
    ensures |u.All()| <= |v.All()|
    ensures var a, l := Entries(u.at, decode), Entries(u.late, decode);
            var r := Entries(v.All()[|u.All()|..], decode);
            && Entries(u.All(), decode) == a + l
            && Entries(v.All(), decode) == (a + l) + r
            && Entries(From(v.All(), |u.at|), decode) == l + r
  {
    hide Entries, Aligned;
    var rest := v.All()[|u.All()|..];
    assert v.All() == u.All() + rest && From(v.All(), |u.at|) == u.late + rest;
    SuffixAligned(u.at, u.late);
    EntriesAppend(u.at, u.late, decode);
    EntriesAppend(u.All(), rest, decode);
    EntriesAppend(u.late, rest, decode);
  }

  lemma SuffixAligned(a: Bytes, b: Bytes)
    requires Aligned(a + b)
    ensures Aligned(b)
  {
    if b != [] { assert (a + b)[|a + b| - 1] == b[|b| - 1]; }
  }

  /** What is left of a file after a seek; past the end there is nothing. */
  function From(b: Bytes, offset: nat): Bytes {
    if offset <= |b| then b[offset..] else []
  }

  /** Lines as a writer puts them into a file, each with a line feed or with a carriage return and one. */
  function Written(lines: seq<Bytes>, crlf: bool): Bytes {
    if lines == [] then [] else (lines[0] + if crlf then [13, 10] else [10]) + Written(lines[1..], crlf)
  }

  predicate Unbroken(l: Bytes) { 10 !in l }

  predicate EndsInReturn(l: Bytes) { l != [] && l[|l| - 1] == 13 }

  lemma {:induction false} FirstNewline(line: Bytes, rest: Bytes)
    requires Unbroken(line)
    ensures LineEnd(line + ([10] + rest)) == |line|
  {
    var b := line + ([10] + rest);
    if line != [] {
      assert b[0] == line[0] && line[0] in line && b[1..] == line[1..] + ([10] + rest);
      FirstNewline(line[1..], rest);
    }
  }

  /** A scanner gives back exactly the lines that were written, with either line end. */
  lemma {:induction false} LinesReadBack(lines: seq<Bytes>, crlf: bool)
    requires forall l <- lines :: Unbroken(l) && (crlf || !EndsInReturn(l))
    ensures LinesOf(Written(lines, crlf)) == lines
  {
    hide LinesOf, LineEnd;
    if lines == [] {
      NoLines();
    } else {
      var l, rest := lines[0], Written(lines[1..], crlf);
      var kept := if crlf then l + [13] else l;
      LinesReadBack(lines[1..], crlf);
      assert Written(lines, crlf) == kept + ([10] + rest);
      assert l in lines && Unbroken(kept);
      FirstNewline(kept, rest);
      var b := Written(lines, crlf);
      assert b[..|kept|] == kept && b[|kept| + 1..] == rest;
      LinesStep(b);
      assert DropReturn(kept) == l;
      assert [l] + lines[1..] == lines;
    }
  }

  /** ... and a last line that lacks its line end as well. */
  lemma LastLineReadBack(lines: seq<Bytes>, last: Bytes)
    requires forall l <- lines :: Unbroken(l) && !EndsInReturn(l)
    requires last != [] && Unbroken(last) && !EndsInReturn(last)
    ensures LinesOf(Written(lines, false) + last) == lines + [last]
  {
    hide LinesOf;
    WrittenAligned(lines, false);
    LinesAppend(Written(lines, false), last);
    LinesReadBack(lines, false);
    Unended(last);
    OnlyLine(last);
  }

  lemma {:induction false} WrittenAligned(lines: seq<Bytes>, crlf: bool)
    ensures Aligned(Written(lines, crlf))
  {
    if lines != [] { WrittenAligned(lines[1..], crlf); }
  }

  lemma {:induction false} Unended(b: Bytes)
    requires Unbroken(b)
    ensures LineEnd(b) == |b|
  {
    if b != [] {
      assert b[0] in b;
      Unended(b[1..]);
    }
  }

  lemma OnlyLine(b: Bytes)
    requires b != [] && LineEnd(b) == |b| && !EndsInReturn(b)
    ensures LinesOf(b) == [b]
  {
    hide LineEnd;
    assert b[..|b|] == b;
  }

  /** Only empty and undecodable lines are skipped, and the others keep their order. */
  lemma DecodeLines<E>(a: seq<Bytes>, line: Bytes, b: seq<Bytes>, decode: Bytes -> Option<E>)
    ensures Decode((a + [line]) + b, decode)
         == if line != [] && decode(line).Some? then (Decode(a, decode) + [decode(line).value]) + Decode(b, decode)
            else Decode(a, decode) + Decode(b, decode)
  {
    DecodeAppend(a + [line], b, decode);
    DecodeAppend(a, [line], decode);
    assert [line][1..] == [] && DecodeLine(line, decode) + [] == DecodeLine(line, decode);
    assert Decode(a, decode) + [] == Decode(a, decode);
    hide Decode;
  }
}
