/** The preprocessor that writes one skill source out for each harness. */
module SkillGen {
  import opened Options
  import opened Seqs
  import opened Text

  datatype Target = Claude | Codex

  datatype Kind = ClaudeOnly | CodexOnly

  datatype Mark = Open(kind: Kind) | Close(kind: Kind) | Content

  // ----- lines -----

  function LineEnd(s: string): (i: nat)
    ensures i <= |s| && (i < |s| ==> s[i] == '\n')
  {
    if s == "" || s[0] == '\n' then 0 else 1 + LineEnd(s[1..])
  }

  lemma {:induction false} LineEndIsFirst(s: string, j: nat)
    requires j < LineEnd(s)
    ensures s[j] != '\n'
  {
    if j > 0 { LineEndIsFirst(s[1..], j - 1); }
  }

  /** The lines of a text, each with its newline; only the last one may lack it. */
  function SplitAfter(s: string): seq<string>
    decreases |s|
  {
    if s == "" then [] else [s[..FirstLength(s)]] + SplitAfter(s[FirstLength(s)..])
  }

  /** The length of the first line, its newline included. */
  function FirstLength(s: string): (n: nat)
    requires s != ""
    ensures 1 <= n <= |s|
  {
    if LineEnd(s) < |s| then LineEnd(s) + 1 else |s|
  }

  function Concat(ls: seq<string>): string { if ls == [] then "" else ls[0] + Concat(ls[1..]) }

  predicate Terminated(l: string) { l != "" && l[|l| - 1] == '\n' && forall j | 0 <= j < |l| - 1 :: l[j] != '\n' }

  predicate IsLine(l: string) { l != "" && forall j | 0 <= j < |l| - 1 :: l[j] != '\n' }

  /** A list of lines that is the split of its own concatenation. */
  predicate Whole(ls: seq<string>) {
    forall i | 0 <= i < |ls| :: IsLine(ls[i]) && (i < |ls| - 1 ==> Terminated(ls[i]))
  }

  lemma {:induction false} SplitIsWhole(s: string)
    ensures Whole(SplitAfter(s))
    decreases |s|
  {
    hide FirstLength, SplitAfter, Whole, Terminated, IsLine;
    if s == "" {
      NothingSplit();
    } else {
      var n := FirstLength(s);
      SplitStep(s);
      FirstLine(s);
      SplitIsWhole(s[n..]);
      if n == |s| { NothingSplit(); }
      WholeCons(s[..n], SplitAfter(s[n..]));
    }
  }

  lemma NothingSplit()
    ensures SplitAfter("") == [] && Whole([])
  {
  }

  /** Nothing is lost by splitting. */
  lemma {:induction false} SplitKeepsAll(s: string)
    ensures Concat(SplitAfter(s)) == s
    decreases |s|
  {
    hide FirstLength, SplitAfter, Concat;
    if s == "" {
      NothingSplit();
      NoLines();
    } else {
      var n := FirstLength(s);
      SplitStep(s);
      SplitKeepsAll(s[n..]);
      ConcatCons(s[..n], SplitAfter(s[n..]));
      assert s[..n] + s[n..] == s;
    }
  }

  lemma NoLines()
    ensures Concat([]) == ""
  {
  }

  lemma SplitStep(s: string)
    requires s != ""
    ensures SplitAfter(s) == [s[..FirstLength(s)]] + SplitAfter(s[FirstLength(s)..])
  {
    hide FirstLength;
  }

  lemma FirstLine(s: string)
    requires s != ""
    ensures var n := FirstLength(s); IsLine(s[..n]) && (n < |s| ==> Terminated(s[..n]))
  {
    hide LineEnd;
    forall j | 0 <= j < LineEnd(s) ensures s[j] != '\n' { LineEndIsFirst(s, j); }
  }

  lemma WholeCons(l: string, rest: seq<string>)
    requires IsLine(l) && (rest != [] ==> Terminated(l)) && Whole(rest)
    ensures Whole([l] + rest)
  {
  }

  lemma ConcatCons(l: string, rest: seq<string>)
    ensures Concat([l] + rest) == l + Concat(rest)
  {
    assert ([l] + rest)[1..] == rest;
  }

  lemma EndOfLine(l: string, rest: string)
    requires Terminated(l)
    ensures LineEnd(l + rest) == |l| - 1
  {
    hide LineEnd;
    var s := l + rest;
    assert s[|l| - 1] == '\n';
    forall j | 0 <= j < LineEnd(s) ensures s[j] != '\n' { LineEndIsFirst(s, j); }
    assert forall j | 0 <= j < |l| - 1 :: s[j] == l[j];
  }

  lemma {:induction false} SplitOfConcat(ls: seq<string>)
    requires Whole(ls)
    ensures SplitAfter(Concat(ls)) == ls
  {
    if ls != [] {
      var l, rest := ls[0], Concat(ls[1..]);
      SplitOfConcat(ls[1..]);
      if |ls| == 1 {
        assert ls[1..] == [] && l + "" == l && ls == [l];
        LastSplit(l);
      } else {
        EndOfLine(l, rest);
        assert (l + rest)[..|l|] == l && (l + rest)[|l|..] == rest;
        assert [ls[0]] + ls[1..] == ls;
      }
    }
  }

  lemma LastSplit(l: string)
    requires IsLine(l)
    ensures SplitAfter(l) == [l]
  {
    hide LineEnd;
    assert LineEnd(l) < |l| ==> LineEnd(l) == |l| - 1;
    assert l[..|l|] == l && l[|l|..] == "";
    NothingSplit();
    SplitStep(l);
  }

  lemma {:induction false} ConcatAppend(a: seq<string>, b: seq<string>)
    ensures Concat(a + b) == Concat(a) + Concat(b)
  {
    if a == [] {
      assert a + b == b && "" + Concat(b) == Concat(b);
    } else {
      assert (a + b)[1..] == a[1..] + b;
      ConcatAppend(a[1..], b);
      Regroup(a[0], Concat(a[1..]), Concat(b));
    }
  }

  lemma ConcatOne(l: string)
    ensures Concat([l]) == l
  {
    assert [l][1..] == [] && l + "" == l;
  }

  // ----- markers -----

  function ParseMarkerLine(line: string): Mark {
    var text := TrimSpace(line);
    if text == "<!-- claude-only -->" then Open(ClaudeOnly)
    else if text == "<!-- /claude-only -->" then Close(ClaudeOnly)
    else if text == "<!-- codex-only -->" then Open(CodexOnly)
    else if text == "<!-- /codex-only -->" then Close(CodexOnly)
    else Content
  }

  function Marks(ls: seq<string>): (ms: seq<Mark>)
    ensures |ms| == |ls| && forall i | 0 <= i < |ls| :: ms[i] == ParseMarkerLine(ls[i])
  {
    seq(|ls|, i requires 0 <= i < |ls| => ParseMarkerLine(ls[i]))
  }

  predicate Matches(kind: Kind, t: Target) { kind.ClaudeOnly? == t.Claude? }

  datatype Error =
    | NoOpener(line: nat, kind: Kind)
    | Mismatch(line: nat, kind: Kind, open: Kind)
    | Nested(line: nat, kind: Kind, open: Kind)
    | Unclosed(kind: Kind)

  datatype State = Idle | In(kind: Kind) | Failed(error: Error)

  function Step(s: State, m: Mark, line: nat): State {
    match m
    case Content => s
    case Open(k) =>
      (match s case Idle => In(k) case In(open) => Failed(Nested(line, k, open)) case Failed(_) => s)
    case Close(k) =>
      (match s
       case Idle => Failed(NoOpener(line, k))
       case In(open) => (if open == k then Idle else Failed(Mismatch(line, k, open)))
       case Failed(_) => s)
  }

  /** Where a scan of the marks stands. */
  function Active(ms: seq<Mark>): State {
    if ms == [] then Idle else Step(Active(ms[..|ms| - 1]), ms[|ms| - 1], |ms|)
  }

  // ----- what is accepted -----

  function OnlyMarkers(ms: seq<Mark>): seq<Mark> {
    if ms == [] then []
    else OnlyMarkers(ms[..|ms| - 1]) + if ms[|ms| - 1].Content? then [] else [ms[|ms| - 1]]
  }

  /** Openers and closers strictly alternate, each closer of its opener's kind. */
  predicate FlatPairs(ms: seq<Mark>) {
    |ms| % 2 == 0 && forall i | 0 <= i < |ms| && i % 2 == 0 :: ms[i].Open? && ms[i + 1] == Close(ms[i].kind)
  }

  predicate FlatThenOpen(ms: seq<Mark>, k: Kind) { ms != [] && FlatPairs(ms[..|ms| - 1]) && ms[|ms| - 1] == Open(k) }

  lemma {:induction false} ActiveByPairs(ms: seq<Mark>)
    ensures Active(ms).Idle? <==> FlatPairs(OnlyMarkers(ms))
    ensures forall k :: Active(ms) == In(k) <==> FlatThenOpen(OnlyMarkers(ms), k)
  {
    if ms != [] {
      var n := |ms| - 1;
      ActiveByPairs(ms[..n]);
      var before, m := OnlyMarkers(ms[..n]), ms[n];
      if !m.Content? {
        assert (before + [m])[..|before|] == before;
        PairsStep(before, m);
      } else {
        assert before + [] == before;
      }
    }
  }

  lemma PairsStep(before: seq<Mark>, m: Mark)
    requires !m.Content?
    ensures FlatPairs(before + [m]) <==> m.Close? && FlatThenOpen(before, m.kind)
    ensures forall k :: FlatThenOpen(before + [m], k) <==> FlatPairs(before) && m == Open(k)
  {
    hide FlatPairs;
    assert (before + [m])[..|before|] == before;
    if FlatPairs(before + [m]) { PairsEnd(before, m); }
    if m.Close? && FlatThenOpen(before, m.kind) {
      PairsGrow(before[..|before| - 1], m.kind);
      assert before[..|before| - 1] + [Open(m.kind), m] == before + [m];
    }
  }

  lemma PairsGrow(flat: seq<Mark>, k: Kind)
    requires FlatPairs(flat)
    ensures FlatPairs(flat + [Open(k), Close(k)])
  {
    var after := flat + [Open(k), Close(k)];
    forall i | 0 <= i < |after| && i % 2 == 0 ensures after[i].Open? && after[i + 1] == Close(after[i].kind) {
      if i < |flat| { assert after[i] == flat[i] && after[i + 1] == flat[i + 1]; }
    }
  }

  lemma PairsEnd(before: seq<Mark>, m: Mark)
    requires FlatPairs(before + [m])
    ensures m.Close? && FlatThenOpen(before, m.kind)
  {
    var after, n := before + [m], |before|;
    assert after[n - 1].Open? && after[n] == Close(after[n - 1].kind);
    var head := before[..n - 1];
    forall i | 0 <= i < |head| && i % 2 == 0 ensures head[i].Open? && head[i + 1] == Close(head[i].kind) {
      assert head[i] == after[i] && head[i + 1] == after[i + 1];
    }
  }

  // ----- what is kept -----

  /** Line i lies between an opener of kind k and its closer. */
  ghost predicate InPair(ms: seq<Mark>, i: int, k: Kind) {
    exists a, b :: Encloses(ms, a, i, b, k)
  }

  predicate Encloses(ms: seq<Mark>, a: int, i: int, b: int, k: Kind) {
    0 <= a < i < b < |ms| && ms[a] == Open(k) && ms[b] == Close(k) && forall j | a < j < b :: ms[j].Content?
  }

  /** A line belongs to a target's output when it is no marker and in no pair of the other target. */
  ghost predicate Belongs(ms: seq<Mark>, i: int, t: Target) {
    0 <= i < |ms| && ms[i].Content? && forall k :: InPair(ms, i, k) ==> Matches(k, t)
  }

  /** The belonging lines among the first n, in order. */
  ghost function Chosen(ls: seq<string>, n: nat, t: Target): seq<string>
    requires n <= |ls|
  {
    if n == 0 then [] else Chosen(ls, n - 1, t) + if Belongs(Marks(ls), n - 1, t) then [ls[n - 1]] else []
  }

  lemma {:induction false} OpenedAt(ms: seq<Mark>, k: Kind)
    requires Active(ms) == In(k)
    ensures exists a :: 0 <= a < |ms| && ms[a] == Open(k) && forall j | a < j < |ms| :: ms[j].Content?
  {
    var n := |ms| - 1;
    if ms[n].Content? {
      OpenedAt(ms[..n], k);
      var a :| 0 <= a < n && ms[..n][a] == Open(k) && forall j | a < j < n :: ms[..n][j].Content?;
      forall j | a < j < |ms| ensures ms[j].Content? { assert j < n ==> ms[..n][j] == ms[j]; }
      assert ms[a] == Open(k);
    } else {
      assert ms[n] == Open(k);
    }
  }

  lemma ActiveStep(ms: seq<Mark>, i: nat)
    requires i < |ms|
    ensures Active(ms[..i + 1]) == Step(Active(ms[..i]), ms[i], i + 1)
  {
    assert ms[..i + 1][..i] == ms[..i];
  }

  lemma {:induction false} FailedStays(ms: seq<Mark>, i: nat)
    requires i <= |ms| && Active(ms[..i]).Failed?
    ensures Active(ms) == Active(ms[..i])
    decreases |ms| - i
  {
    if i == |ms| {
      assert ms[..i] == ms;
    } else {
      ActiveStep(ms, i);
      FailedStays(ms, i + 1);
    }
  }

  lemma {:induction false} ClosesLater(ms: seq<Mark>, i: nat, k: Kind)
    requires i <= |ms| && Active(ms[..i]) == In(k) && Active(ms).Idle?
    ensures exists b :: i <= b < |ms| && ms[b] == Close(k) && forall j | i <= j < b :: ms[j].Content?
    decreases |ms| - i
  {
    assert ms[..|ms|] == ms;
    ActiveStep(ms, i);
    if Active(ms[..i + 1]).Failed? { FailedStays(ms, i + 1); }
    if ms[i].Content? {
      ClosesLater(ms, i + 1, k);
      var b :| i + 1 <= b < |ms| && ms[b] == Close(k) && forall j | i + 1 <= j < b :: ms[j].Content?;
      forall j | i <= j < b ensures ms[j].Content? { assert j == i || i + 1 <= j; }
    } else {
      assert ms[i] == Close(k);
    }
  }

  lemma {:induction false} StaysOpen(ms: seq<Mark>, a: nat, i: nat, k: Kind)
    requires a < i <= |ms| && ms[a] == Open(k) && Active(ms).Idle?
    requires forall j | a < j < i :: ms[j].Content?
    ensures Active(ms[..i]) == In(k)
    decreases i
  {
    ActiveStep(ms, i - 1);
    if i - 1 > a {
      StaysOpen(ms, a, i - 1, k);
    } else {
      if Active(ms[..i]).Failed? { FailedStays(ms, i); }
    }
  }

  /** In an accepted source the scan is inside a pair exactly where one encloses the line. */
  lemma ActiveIsInPair(ms: seq<Mark>, i: nat, k: Kind)
    requires i < |ms| && ms[i].Content? && Active(ms).Idle?
    ensures Active(ms[..i]) == In(k) <==> InPair(ms, i, k)
  {
    if Active(ms[..i]) == In(k) {
      OpenedAt(ms[..i], k);
      ClosesLater(ms, i, k);
      var a :| 0 <= a < i && ms[..i][a] == Open(k) && forall j | a < j < i :: ms[..i][j].Content?;
      var b :| i <= b < |ms| && ms[b] == Close(k) && forall j | i <= j < b :: ms[j].Content?;
      forall j | a < j < b ensures ms[j].Content? { assert j < i ==> ms[..i][j] == ms[j]; }
      assert Encloses(ms, a, i, b, k);
    }
    if InPair(ms, i, k) {
      var a, b :| Encloses(ms, a, i, b, k);
      StaysOpen(ms, a, i, k);
    }
  }

  lemma NotFailedBefore(ms: seq<Mark>, i: nat)
    requires i <= |ms| && Active(ms).Idle?
    ensures !Active(ms[..i]).Failed?
  {
    if Active(ms[..i]).Failed? { FailedStays(ms, i); }
  }

  lemma BelongsByScan(ms: seq<Mark>, i: nat, t: Target)
    requires i < |ms| && Active(ms).Idle?
    ensures var s := Active(ms[..i]);
            Belongs(ms, i, t) <==> ms[i].Content? && (s.Idle? || (s.In? && Matches(s.kind, t)))
  {
    hide InPair, Active;
    var s := Active(ms[..i]);
    NotFailedBefore(ms, i);
    if ms[i].Content? {
      forall k ensures s == In(k) <==> InPair(ms, i, k) { ActiveIsInPair(ms, i, k); }
    }
  }

  // ----- the codex command prefix -----

  const CLAUDE_COMMAND := "/agent-dashboard:"
  const CODEX_COMMAND := "$agent-dashboard:"

  /** Replaces every occurrence, scanning from the left. */
  function ReplaceAll(s: string): string
    decreases |s|
  {
    if s == "" then ""
    else if StartsWith(s, CLAUDE_COMMAND) then CODEX_COMMAND + ReplaceAll(s[|CLAUDE_COMMAND|..])
    else [s[0]] + ReplaceAll(s[1..])
  }

  predicate CommandAt(s: string, i: int) { 0 <= i < |s| && StartsWith(s[i..], "/agent-dashboard:") }

  /** Every slash that begins a command becomes a dollar sign, and nothing else changes. */
  function Dollars(s: string): (r: string)
    ensures |r| == |s|
    ensures forall i | 0 <= i < |s| :: r[i] == if CommandAt(s, i) then '$' else s[i]
  {
    seq(|s|, i requires 0 <= i < |s| => if CommandAt(s, i) then '$' else s[i])
  }

  lemma CommandChars(s: string, i: int)
    ensures CommandAt(s, i) <==> 0 <= i && i + |CLAUDE_COMMAND| <= |s|
                                 && forall j | 0 <= j < |CLAUDE_COMMAND| :: s[i + j] == CLAUDE_COMMAND[j]
  {
    if 0 <= i && i + |CLAUDE_COMMAND| <= |s| {
      var p := s[i..][..|CLAUDE_COMMAND|];
      assert |p| == |CLAUDE_COMMAND| && forall j | 0 <= j < |p| :: p[j] == s[i + j];
    }
  }

  lemma SlashOnlyFirst(j: int)
    requires 0 < j < |CLAUDE_COMMAND|
    ensures CLAUDE_COMMAND[j] != '/' && CLAUDE_COMMAND[j] != '$' && CLAUDE_COMMAND[j] != '\n'
    ensures CODEX_COMMAND[j] == CLAUDE_COMMAND[j] && CLAUDE_COMMAND[0] == '/' && CODEX_COMMAND[0] == '$'
    ensures |CODEX_COMMAND| == |CLAUDE_COMMAND|
  {
  }

  lemma CommandShift(s: string, d: nat, i: nat)
    requires d <= i <= |s|
    ensures CommandAt(s, i) <==> CommandAt(s[d..], i - d)
  {
    hide StartsWith;
    if i < |s| { assert s[d..][i - d..] == s[i..]; }
  }

  lemma DollarsAtCommand(s: string)
    requires CommandAt(s, 0)
    ensures |s| >= |CLAUDE_COMMAND| && Dollars(s) == CODEX_COMMAND + Dollars(s[|CLAUDE_COMMAND|..])
  {
    hide CommandAt;
    var n := |CLAUDE_COMMAND|;
    CommandChars(s, 0);
    SlashOnlyFirst(1);
    forall i | 0 <= i < |s| ensures Dollars(s)[i] == (CODEX_COMMAND + Dollars(s[n..]))[i] {
      if 0 < i < n {
        SlashOnlyFirst(i);
        CommandChars(s, i);
        assert s[i] == s[0 + i] == CLAUDE_COMMAND[i];
      } else if n <= i {
        CommandShift(s, n, i);
      }
    }
  }

  lemma DollarsAtOther(s: string)
    requires s != "" && !CommandAt(s, 0)
    ensures Dollars(s) == [s[0]] + Dollars(s[1..])
  {
    hide CommandAt;
    forall i | 0 < i < |s| ensures Dollars(s)[i] == Dollars(s[1..])[i - 1] { CommandShift(s, 1, i); }
  }

  /** The left-to-right replacement is that change of characters. */
  lemma {:induction false} ReplaceIsDollars(s: string)
    ensures ReplaceAll(s) == Dollars(s)
    decreases |s|
  {
    hide CommandAt, StartsWith, Dollars;
    if s == "" {
      assert Dollars(s) == "";
    } else {
      CommandFirst(s);
      if CommandAt(s, 0) {
        DollarsAtCommand(s);
        ReplaceIsDollars(s[|CLAUDE_COMMAND|..]);
      } else {
        DollarsAtOther(s);
        ReplaceIsDollars(s[1..]);
      }
    }
  }

  lemma CommandFirst(s: string)
    requires s != ""
    ensures CommandAt(s, 0) <==> StartsWith(s, CLAUDE_COMMAND)
  {
    assert s[0..] == s;
  }

  lemma DollarsTwice(s: string)
    ensures Dollars(Dollars(s)) == Dollars(s)
  {
    hide CommandAt;
    var d := Dollars(s);
    forall i | 0 <= i < |s| ensures !CommandAt(d, i) {
      if CommandAt(d, i) { StillCommand(s, i); }
    }
  }

  lemma StillCommand(s: string, i: nat)
    requires i < |s| && CommandAt(Dollars(s), i)
    ensures CommandAt(s, i) && Dollars(s)[i] == '/'
  {
    hide CommandAt;
    var d, n := Dollars(s), |CLAUDE_COMMAND|;
    CommandChars(d, i);
    CommandChars(s, i);
    SlashOnlyFirst(1);
    assert d[i + 0] == '/';
    forall j | 0 <= j < n ensures s[i + j] == CLAUDE_COMMAND[j] {
      assert d[i + j] == CLAUDE_COMMAND[j];
      if j > 0 { SlashOnlyFirst(j); }
    }
  }

  /** No command crosses the end of a line. */
  lemma DollarsOfLine(l: string, rest: string)
    requires Terminated(l)
    ensures Dollars(l + rest) == Dollars(l) + Dollars(rest)
  {
    hide CommandAt;
    var s := l + rest;
    forall i | 0 <= i < |s| ensures CommandAt(s, i) <==> if i < |l| then CommandAt(l, i) else CommandAt(rest, i - |l|) {
      if i < |l| {
        CommandInLine(l, rest, i);
      } else {
        CommandShift(s, |l|, i);
        assert s[|l|..] == rest;
      }
    }
  }

  lemma CommandInLine(l: string, rest: string, i: nat)
    requires Terminated(l) && i < |l|
    ensures CommandAt(l + rest, i) <==> CommandAt(l, i)
  {
    hide CommandAt;
    var s, n := l + rest, |CLAUDE_COMMAND|;
    CommandChars(s, i);
    CommandChars(l, i);
    if CommandAt(l, i) {
      forall k | 0 <= k < n ensures s[i + k] == CLAUDE_COMMAND[k] { assert s[i + k] == l[i + k]; }
    }
    if CommandAt(s, i) {
      var j := |l| - 1 - i;
      assert s[i + j] == '\n' && s[i + 0] == CLAUDE_COMMAND[0];
      if 0 < j < n { SlashOnlyFirst(j); }
      assert j >= n;
      forall k | 0 <= k < n ensures l[i + k] == CLAUDE_COMMAND[k] { assert s[i + k] == l[i + k]; }
    }
  }

  // ----- the transformation -----

  datatype Result = Ok(text: string) | Err(error: Error)

  ghost function Output(ls: seq<string>, t: Target): string {
    var text := Concat(Chosen(ls, |ls|, t));
    if t.Codex? then ReplaceAll(text) else text
  }

  ghost function Transformed(src: string, t: Target): Result {
    var ls := SplitAfter(src);
    match Active(Marks(ls))
    case Idle => Ok(Output(ls, t))
    case In(k) => Err(Unclosed(k))
    case Failed(e) => Err(e)
  }

  /** A source is accepted for one target exactly when it is for the other, with the same error
      otherwise: when its markers form flat matched pairs. */
  lemma AcceptedByPairs(src: string, t: Target)
    ensures Transformed(src, t).Ok? <==> FlatPairs(OnlyMarkers(Marks(SplitAfter(src))))
    ensures Transformed(src, Claude).Ok? <==> Transformed(src, Codex).Ok?
    ensures Transformed(src, Claude).Err? ==> Transformed(src, Claude) == Transformed(src, Codex)
  {
    hide Output, SplitAfter, FlatPairs, FlatThenOpen, Active, OnlyMarkers, ParseMarkerLine;
    ActiveByPairs(Marks(SplitAfter(src)));
  }

  predicate AllContent(ls: seq<string>) { forall l <- ls :: ParseMarkerLine(l).Content? }

  predicate AllTerminated(ls: seq<string>) { forall l <- ls :: Terminated(l) }

  lemma {:induction false} ChosenLines(ls: seq<string>, n: nat, t: Target)
    requires Whole(ls) && n <= |ls|
    ensures AllContent(Chosen(ls, n, t)) && Whole(Chosen(ls, n, t))
    ensures n < |ls| ==> AllTerminated(Chosen(ls, n, t))
  {
    hide Terminated, IsLine, ParseMarkerLine, InPair;
    if n > 0 { ChosenLines(ls, n - 1, t); }
  }

  lemma {:induction false} NoMarkersIdle(ms: seq<Mark>)
    requires forall m <- ms :: m.Content?
    ensures Active(ms).Idle?
  {
    if ms != [] {
      assert ms[|ms| - 1] in ms;
      NoMarkersIdle(ms[..|ms| - 1]);
    }
  }

  lemma {:induction false} AllChosen(ls: seq<string>, n: nat, t: Target)
    requires AllContent(ls) && n <= |ls|
    ensures Chosen(ls, n, t) == ls[..n]
  {
    hide ParseMarkerLine;
    if n > 0 {
      AllChosen(ls, n - 1, t);
      assert ls[..n] == ls[..n - 1] + [ls[n - 1]];
      assert Belongs(Marks(ls), n - 1, t);
    }
  }

  /** Lines without markers come out unchanged, up to the command prefix. */
  lemma PlainLinesStay(ls: seq<string>, t: Target)
    requires Whole(ls) && AllContent(ls)
    ensures Transformed(Concat(ls), t) == Ok(if t.Codex? then ReplaceAll(Concat(ls)) else Concat(ls))
  {
    hide ParseMarkerLine, Whole, Chosen, Active;
    SplitOfConcat(ls);
    AllChosen(ls, |ls|, t);
    assert ls[..|ls|] == ls;
    NoMarkersIdle(Marks(ls));
  }

  function DollarLines(ls: seq<string>): (r: seq<string>)
    ensures |r| == |ls| && forall i | 0 <= i < |ls| :: r[i] == Dollars(ls[i])
  {
    seq(|ls|, i requires 0 <= i < |ls| => Dollars(ls[i]))
  }

  lemma {:induction false} DollarsByLine(ls: seq<string>)
    requires Whole(ls)
    ensures Dollars(Concat(ls)) == Concat(DollarLines(ls))
  {
    hide Dollars, Terminated, IsLine;
    if ls == [] {
      assert Dollars("") == "";
    } else {
      DollarsByLine(ls[1..]);
      assert DollarLines(ls)[1..] == DollarLines(ls[1..]);
      if |ls| == 1 {
        assert ls[1..] == [] && ls == [ls[0]] && DollarLines(ls) == [Dollars(ls[0])];
        ConcatOne(ls[0]);
        ConcatOne(Dollars(ls[0]));
      } else {
        DollarsOfLine(ls[0], Concat(ls[1..]));
      }
    }
  }

  lemma DollarsKeepLine(l: string)
    ensures IsLine(l) ==> IsLine(Dollars(l))
    ensures Terminated(l) ==> Terminated(Dollars(l))
  {
    hide CommandAt;
    forall i | 0 <= i < |l| && CommandAt(l, i) ensures l[i] != '\n' {
      CommandChars(l, i);
      SlashOnlyFirst(1);
      assert l[i + 0] == '/';
    }
  }

  /** No marker appears by substitution. */
  lemma DollarsKeepContent(l: string)
    requires ParseMarkerLine(l).Content?
    ensures ParseMarkerLine(Dollars(l)).Content?
  {
    hide CommandAt, TrimSpace, ParseMarkerLine;
    var d := Dollars(l);
    if d != l {
      var i :| 0 <= i < |l| && d[i] != l[i];
      assert d[i] == '$';
      TrimKeeps(d, '$');
      MarkersHaveNoDollar(d);
    }
  }

  lemma MarkersHaveNoDollar(l: string)
    requires '$' in TrimSpace(l)
    ensures ParseMarkerLine(l).Content?
  {
    hide TrimSpace;
  }

  lemma DollarLinesStayPlain(ls: seq<string>)
    requires Whole(ls) && AllContent(ls)
    ensures Whole(DollarLines(ls)) && AllContent(DollarLines(ls))
  {
    hide Dollars, ParseMarkerLine, Terminated, IsLine;
    var r := DollarLines(ls);
    forall i | 0 <= i < |ls|
      ensures IsLine(r[i]) && (i < |ls| - 1 ==> Terminated(r[i])) && ParseMarkerLine(r[i]).Content?
    {
      DollarsKeepLine(ls[i]);
      DollarsKeepContent(ls[i]);
    }
  }

  /** Transforming an accepted output again changes nothing, the command prefix included. */
  lemma TransformTwice(src: string, t: Target)
    requires Transformed(src, t).Ok?
    ensures Transformed(Transformed(src, t).text, t) == Transformed(src, t)
  {
    hide Whole, AllContent, Chosen, Dollars, SplitAfter, Active;
    var ls := SplitAfter(src);
    SplitIsWhole(src);
    ChosenLines(ls, |ls|, t);
    var chosen := Chosen(ls, |ls|, t);
    if t.Claude? {
      PlainLinesStay(chosen, t);
    } else {
      ReplaceIsDollars(Concat(chosen));
      DollarsByLine(chosen);
      DollarLinesStayPlain(chosen);
      PlainLinesStay(DollarLines(chosen), t);
      ReplaceIsDollars(Concat(DollarLines(chosen)));
      DollarsTwice(Concat(chosen));
    }
  }

  /** The loop over the lines. */
  method Transform(src: string, t: Target) returns (r: Result)
    ensures r == Transformed(src, t)
  {
    hide SplitAfter, Chosen, Belongs, ParseMarkerLine, Active, ReplaceAll, Concat;
    var ls := SplitAfter(src);
    ghost var ms := Marks(ls);
    var out := "";
    var active: Option<Kind> := None;
    var i := 0;
    NothingScanned();
    assert ms[..0] == [] && ls[..0] == [];
    while i < |ls|
      invariant i <= |ls|
      invariant Active(ms[..i]) == if active.None? then Idle else In(active.value)
      invariant out == Concat(Emitted(ls, i, t))
    {
      ActiveStep(ms, i);
      EmittedStep(ls, i, t);
      var m := ParseMarkerLine(ls[i]);
      i := i + 1;
      match m {
        case Close(kind) =>
          if active.None? { FailedStays(ms, i); return Err(NoOpener(i, kind)); }
          if active.value != kind { FailedStays(ms, i); return Err(Mismatch(i, kind, active.value)); }
          active := None;
        case Open(kind) =>
          if active.Some? { FailedStays(ms, i); return Err(Nested(i, kind, active.value)); }
          active := Some(kind);
        case Content =>
          if active.None? || Matches(active.value, t) { out := out + ls[i - 1]; }
      }
    }
    assert ms[..i] == ms;
    if active.Some? { return Err(Unclosed(active.value)); }
    EmittedIsChosen(ls, |ls|, t);
    if t == Codex { return Ok(ReplaceAll(out)); }
    return Ok(out);
  }

  /** The lines the loop has written out, by the marker it believes to be inside of. */
  ghost function Emitted(ls: seq<string>, n: nat, t: Target): seq<string>
    requires n <= |ls|
  {
    if n == 0 then []
    else
      var s := Active(Marks(ls)[..n - 1]);
      Emitted(ls, n - 1, t)
      + if ParseMarkerLine(ls[n - 1]).Content? && (s.Idle? || (s.In? && Matches(s.kind, t))) then [ls[n - 1]] else []
  }

  lemma NothingScanned()
    ensures Active([]) == Idle && Concat([]) == ""
  {
  }

  lemma EmittedStep(ls: seq<string>, i: nat, t: Target)
    requires i < |ls|
    ensures var s := Active(Marks(ls)[..i]);
            Concat(Emitted(ls, i + 1, t)) ==
              if ParseMarkerLine(ls[i]).Content? && (s.Idle? || (s.In? && Matches(s.kind, t)))
              then Concat(Emitted(ls, i, t)) + ls[i]
              else Concat(Emitted(ls, i, t))
  {
    hide Active, ParseMarkerLine, Concat;
    ConcatAppend(Emitted(ls, i, t), [ls[i]]);
    ConcatOne(ls[i]);
    assert Emitted(ls, i, t) + [] == Emitted(ls, i, t);
  }

  lemma {:induction false} EmittedIsChosen(ls: seq<string>, n: nat, t: Target)
    requires n <= |ls| && Active(Marks(ls)).Idle?
    ensures Emitted(ls, n, t) == Chosen(ls, n, t)
  {
    hide Active, Belongs, ParseMarkerLine;
    if n > 0 {
      EmittedIsChosen(ls, n - 1, t);
      BelongsByScan(Marks(ls), n - 1, t);
    }
  }

  // ----- what becomes of a pair -----

  /** A line is a marker by its trimmed text alone, and there are four of them. */
  lemma MarkersMean(l: string)
    ensures var text := TrimSpace(l);
            && (ParseMarkerLine(l).Content? <==>
                  text !in {"<!-- claude-only -->", "<!-- /claude-only -->",
                            "<!-- codex-only -->", "<!-- /codex-only -->"})
            && (ParseMarkerLine(l).Open? <==> text in {"<!-- claude-only -->", "<!-- codex-only -->"})
  {
    hide TrimSpace;
  }

  lemma {:induction false} EmittedPrefix(a: seq<string>, b: seq<string>, n: nat, t: Target)
    requires n <= |a|
    ensures Emitted(a + b, n, t) == Emitted(a, n, t)
  {
    hide Active, ParseMarkerLine;
    if n > 0 {
      EmittedPrefix(a, b, n - 1, t);
      assert Marks(a + b)[..n - 1] == Marks(a)[..n - 1];
    }
  }

  /** What the scan has written out, and where it stands, after all of `ls`. */
  ghost predicate Leaves(ls: seq<string>, t: Target, out: seq<string>, s: State) {
    Active(Marks(ls)) == s && Emitted(ls, |ls|, t) == out
  }

  lemma LeavesMore(ls: seq<string>, l: string, t: Target, out: seq<string>, s: State)
    requires Leaves(ls, t, out, s)
    ensures var m := ParseMarkerLine(l);
            var written := m.Content? && (s.Idle? || (s.In? && Matches(s.kind, t)));
            Leaves(ls + [l], t, if written then out + [l] else out, Step(s, m, |ls| + 1))
  {
    hide Active, ParseMarkerLine;
    var ms := Marks(ls + [l]);
    assert ms[..|ls|] == Marks(ls) && ms[..|ls| + 1] == ms;
    ActiveStep(ms, |ls|);
    EmittedPrefix(ls, [l], |ls|, t);
    assert out + [] == out;
  }

  lemma {:induction false} LeavesContent(ls: seq<string>, more: seq<string>, t: Target, out: seq<string>, s: State)
    requires Leaves(ls, t, out, s) && !s.Failed? && AllContent(more)
    ensures Leaves(ls + more, t, if s.Idle? || Matches(s.kind, t) then out + more else out, s)
  {
    hide Leaves, ParseMarkerLine;
    if more == [] {
      assert ls + more == ls && out + more == out;
    } else {
      var n := |more| - 1;
      assert more[n] in more && forall l <- more[..n] :: l in more;
      assert more == more[..n] + [more[n]];
      LeavesContent(ls, more[..n], t, out, s);
      LeavesMore(ls + more[..n], more[n], t, if s.Idle? || Matches(s.kind, t) then out + more[..n] else out, s);
      assert ls + more == (ls + more[..n]) + [more[n]] && out + more == (out + more[..n]) + [more[n]];
    }
  }

  /** A source of one pair between plain lines. */
  function Paired(before: seq<string>, open: string, inner: seq<string>, close: string, after: seq<string>)
    : seq<string>
  {
    (((before + [open]) + inner) + [close]) + after
  }

  lemma PairLeaves(before: seq<string>, open: string, inner: seq<string>, close: string, after: seq<string>,
                   k: Kind, t: Target)
    requires AllContent(before) && AllContent(inner) && AllContent(after)
    requires ParseMarkerLine(open) == Open(k) && ParseMarkerLine(close) == Close(k)
    ensures Leaves(Paired(before, open, inner, close, after), t,
                   if Matches(k, t) then (before + inner) + after else before + after, Idle)
  {
    hide Leaves, ParseMarkerLine, Matches;
    NothingLeft(t);
    LeavesContent([], before, t, [], Idle);
    assert [] + before == before;
    LeavesMore(before, open, t, before, Idle);
    LeavesContent(before + [open], inner, t, before, In(k));
    var out := if Matches(k, t) then before + inner else before;
    LeavesMore((before + [open]) + inner, close, t, out, In(k));
    LeavesContent(((before + [open]) + inner) + [close], after, t, out, Idle);
  }

  lemma NothingLeft(t: Target)
    ensures Leaves([], t, [], Idle)
  {
  }

  lemma PairTransformed(before: seq<string>, open: string, inner: seq<string>, close: string, after: seq<string>,
                        k: Kind, t: Target)
    requires AllContent(before) && AllContent(inner) && AllContent(after)
    requires ParseMarkerLine(open) == Open(k) && ParseMarkerLine(close) == Close(k)
    requires Whole(Paired(before, open, inner, close, after))
    ensures var text := Concat(if Matches(k, t) then (before + inner) + after else before + after);
            Transformed(Concat(Paired(before, open, inner, close, after)), t)
            == Ok(if t.Codex? then ReplaceAll(text) else text)
  {
    hide ParseMarkerLine, Matches, Active, Emitted, Chosen, Whole, AllContent, ReplaceAll, Paired;
    var ls := Paired(before, open, inner, close, after);
    SplitOfConcat(ls);
    PairLeaves(before, open, inner, close, after, k, t);
    EmittedIsChosen(ls, |ls|, t);
  }

  /** What stands between the markers of one harness goes to that harness alone, without the markers, and
      what stands outside to both. */
  lemma PairsAreForOne(before: seq<string>, open: string, inner: seq<string>, close: string, after: seq<string>)
    requires AllContent(before) && AllContent(inner) && AllContent(after)
    requires Whole(Paired(before, open, inner, close, after))
    ensures var src := Concat(Paired(before, open, inner, close, after));
            var one, both := Concat((before + inner) + after), Concat(before + after);
            && (TrimSpace(open) == "<!-- claude-only -->" && TrimSpace(close) == "<!-- /claude-only -->" ==>
                  Transformed(src, Claude) == Ok(one) && Transformed(src, Codex) == Ok(ReplaceAll(both)))
            && (TrimSpace(open) == "<!-- codex-only -->" && TrimSpace(close) == "<!-- /codex-only -->" ==>
                  Transformed(src, Claude) == Ok(both) && Transformed(src, Codex) == Ok(ReplaceAll(one)))
  {
    hide TrimSpace, Concat, Transformed, Whole, AllContent, ReplaceAll, Paired;
    if TrimSpace(open) == "<!-- claude-only -->" && TrimSpace(close) == "<!-- /claude-only -->" {
      PairTransformed(before, open, inner, close, after, ClaudeOnly, Claude);
      PairTransformed(before, open, inner, close, after, ClaudeOnly, Codex);
    }
    if TrimSpace(open) == "<!-- codex-only -->" && TrimSpace(close) == "<!-- /codex-only -->" {
      PairTransformed(before, open, inner, close, after, CodexOnly, Claude);
      PairTransformed(before, open, inner, close, after, CodexOnly, Codex);
    }
  }

  // ----- the errors -----

  lemma {:induction false} FailsAt(ms: seq<Mark>, n: nat, k: Kind, o: Kind)
    ensures Active(ms) == Failed(NoOpener(n, k))
       <==> 1 <= n <= |ms| && ms[n - 1] == Close(k) && FlatPairs(OnlyMarkers(ms[..n - 1]))
    ensures Active(ms) == Failed(Mismatch(n, k, o))
       <==> 1 <= n <= |ms| && ms[n - 1] == Close(k) && k != o && FlatThenOpen(OnlyMarkers(ms[..n - 1]), o)
    ensures Active(ms) == Failed(Nested(n, k, o))
       <==> 1 <= n <= |ms| && ms[n - 1] == Open(k) && FlatThenOpen(OnlyMarkers(ms[..n - 1]), o)
  {
    hide FlatPairs, FlatThenOpen, OnlyMarkers;
    if ms != [] {
      var init := ms[..|ms| - 1];
      FailsAt(init, n, k, o);
      if n == |ms| {
        ActiveByPairs(init);
      } else if 1 <= n < |ms| {
        assert init[..n - 1] == ms[..n - 1];
      }
    }
  }

  /** A rejected source is rejected for its first bad marker: the first closer without an opener, or of the
      other kind, or the first opener inside a pair; failing that, for the opener that is left. */
  lemma ErrorsMean(src: string, t: Target, n: nat, k: Kind, o: Kind)
    ensures var ms := Marks(SplitAfter(src));
            && (Transformed(src, t) == Err(NoOpener(n, k)) <==>
                  1 <= n <= |ms| && ms[n - 1] == Close(k) && FlatPairs(OnlyMarkers(ms[..n - 1])))
            && (Transformed(src, t) == Err(Mismatch(n, k, o)) <==>
                  1 <= n <= |ms| && ms[n - 1] == Close(k) && k != o && FlatThenOpen(OnlyMarkers(ms[..n - 1]), o))
            && (Transformed(src, t) == Err(Nested(n, k, o)) <==>
                  1 <= n <= |ms| && ms[n - 1] == Open(k) && FlatThenOpen(OnlyMarkers(ms[..n - 1]), o))
            && (Transformed(src, t) == Err(Unclosed(k)) <==> FlatThenOpen(OnlyMarkers(ms), k))
  {
    hide FlatPairs, FlatThenOpen, OnlyMarkers, Active, SplitAfter, Output, ParseMarkerLine;
    FailsAt(Marks(SplitAfter(src)), n, k, o);
    ActiveByPairs(Marks(SplitAfter(src)));
    NotUnclosed(Marks(SplitAfter(src)));
  }

  lemma {:induction false} NotUnclosed(ms: seq<Mark>)
    ensures Active(ms).Failed? ==> !Active(ms).error.Unclosed?
  {
    if ms != [] { NotUnclosed(ms[..|ms| - 1]); }
  }
}
