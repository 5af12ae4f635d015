/** The scans of a Claude transcript for a tool call that still waits for the user: the id-set
    scan of the Node hooks, the tail scans and the whole-file scans of the dashboard. */
module PendingTools {
  import opened Options
  import opened Lines
  import opened BlockingTools

  datatype Block = ToolUse(name: string, id: string, input: string) | ToolResult(id: string) | OtherBlock

  /** Message content: an array of blocks, or anything else (plain text, unreadable). */
  datatype Content = NotBlocks | Blocks(blocks: seq<Block>)

  datatype Line = Assistant(content: Content) | User(content: Content) | Other

  const PLAN := "ExitPlanMode"
  const QUESTION := "AskUserQuestion"

  predicate Calls(l: Line, name: string) {
    l.Assistant? && l.content.Blocks? && exists b <- l.content.blocks :: b.ToolUse? && b.name == name
  }

  /** A user line that is more than results the system produced. */
  predicate Human(l: Line) {
    l.User? && (l.content.NotBlocks? || exists b <- l.content.blocks :: !b.ToolResult?)
  }

  predicate Answers(l: Line, id: string) {
    l.User? && l.content.Blocks? && id != "" && ToolResult(id) in l.content.blocks
  }

  // ----- the tail of a file -----

  const TAIL_SIZE := 32 * 1024

  function TailStart(file: Bytes): (c: nat)
    ensures c <= |file|
  {
    if |file| > TAIL_SIZE then |file| - TAIL_SIZE else 0
  }

  function Tail(file: Bytes): Bytes { file[TailStart(file)..] }

  /** The dashboard's tail scanners hold no more than the tail: one without a newline is too long a line. */
  predicate Overlong(file: Bytes) { |Tail(file)| == TAIL_SIZE && LineEnd(Tail(file)) == TAIL_SIZE }

  /** The lines such a scanner gives before it stops. */
  function ScannedLines(file: Bytes): seq<Bytes> { if Overlong(file) then [] else LinesOf(Tail(file)) }

  function TailLines(file: Bytes, decode: Bytes -> Option<Line>): seq<Line> { Decode(ScannedLines(file), decode) }

  /** Where the first whole line of the tail starts when the line at the cut is dropped. */
  function AfterCut(file: Bytes): (p: nat)
    ensures TailStart(file) <= p <= |file|
  {
    var c := TailStart(file);
    var e := c + LineEnd(file[c..]);
    if c == 0 then 0 else if e < |file| then e + 1 else |file|
  }

  predicate AlignedCut(file: Bytes) { TailStart(file) == 0 || file[TailStart(file) - 1] == NEWLINE }

  /** What a seek into the middle of a line adds to the entries: nothing, unless the fragment that is
      left of the line decodes by itself. */
  function Fragment(file: Bytes, decode: Bytes -> Option<Line>): (ls: seq<Line>)
    ensures |ls| <= 1
  {
    if AlignedCut(file) || Overlong(file) then [] else DecodeLine(DropReturn(Tail(file)[..LineEnd(Tail(file))]), decode)
  }

  /** Where the lines start that a dashboard scan of the tail really sees. */
  function SeenFrom(file: Bytes): (p: nat)
    ensures p <= |file|
  {
    if Overlong(file) then |file| else if AlignedCut(file) then TailStart(file) else AfterCut(file)
  }

  lemma SplitEntries(file: Bytes, p: nat, decode: Bytes -> Option<Line>)
    requires p <= |file| && (p == |file| || Aligned(file[..p]))
    ensures Entries(file, decode) == Entries(file[..p], decode) + Entries(file[p..], decode)
  {
    hide Decode, LinesOf;
    if p == |file| {
      assert file[..p] == file && file[p..] == [];
      NoEntries(decode);
    } else {
      assert file == file[..p] + file[p..];
      EntriesAppend(file[..p], file[p..], decode);
    }
  }

  lemma NoEntries(decode: Bytes -> Option<Line>)
    ensures Entries([], decode) == [] && Decode([], decode) == []
  {
  }

  lemma AfterCutAligned(file: Bytes)
    ensures AfterCut(file) == |file| || Aligned(file[..AfterCut(file)])
  {
  }

  lemma DecodeHead(first: Bytes, rest: seq<Bytes>, decode: Bytes -> Option<Line>)
    ensures Decode([first] + rest, decode) == DecodeLine(first, decode) + Decode(rest, decode)
  {
    hide DecodeLine;
    assert ([first] + rest)[1..] == rest;
  }

  /** The first line of a tail, decodable or not, and the rest. */
  lemma FirstLineRead(tail: Bytes, decode: Bytes -> Option<Line>)
    requires tail != []
    ensures var e := LineEnd(tail); var rest := if e < |tail| then Entries(tail[e + 1..], decode) else [];
            Entries(tail, decode) == DecodeLine(DropReturn(tail[..e]), decode) + rest
  {
    hide DecodeLine, Decode, LineEnd, DropReturn, LinesOf;
    var e := LineEnd(tail);
    if e < |tail| {
      LinesStep(tail);
      DecodeHead(DropReturn(tail[..e]), LinesOf(tail[e + 1..]), decode);
    } else {
      LastLine(tail);
      DecodeHead(DropReturn(tail[..e]), [], decode);
      assert [DropReturn(tail[..e])] + [] == [DropReturn(tail[..e])];
      NoEntries(decode);
    }
  }

  lemma LastLine(tail: Bytes)
    requires tail != [] && LineEnd(tail) == |tail|
    ensures LinesOf(tail) == [DropReturn(tail[..LineEnd(tail)])]
  {
  }

  lemma TailLinesAre(file: Bytes, decode: Bytes -> Option<Line>)
    ensures TailLines(file, decode) == if Overlong(file) then [] else Entries(Tail(file), decode)
  {
  }

  /** What a tail scan sees: the fragment's entry, if it has one, and the entries of the whole lines
      after it, which are the last entries of the file. */
  lemma TailEntries(file: Bytes, decode: Bytes -> Option<Line>)
    ensures var p := SeenFrom(file);
            && TailLines(file, decode) == Fragment(file, decode) + Entries(file[p..], decode)
            && Entries(file, decode) == Entries(file[..p], decode) + Entries(file[p..], decode)
  {
    hide Entries, DecodeLine, DropReturn, LineEnd;
    var c, p := TailStart(file), SeenFrom(file);
    AfterCutAligned(file);
    SplitEntries(file, p, decode);
    assert Tail(file) == file[c..];
    TailLinesAre(file, decode);
    NoEntries(decode);
    if Overlong(file) {
      assert file[p..] == [];
    } else if AlignedCut(file) {
      assert [] + Entries(file[p..], decode) == Entries(file[p..], decode);
    } else {
      FirstLineRead(file[c..], decode);
      var e := c + LineEnd(file[c..]);
      assert p == e + 1 && file[c..][p - c..] == file[p..];
    }
  }

  // ----- the id-set scan -----

  function UsedIds(bs: seq<Block>): set<string> { set b | b in bs && b.ToolUse? && b.id != "" :: b.id }

  function AnsweredIds(bs: seq<Block>): set<string> { set b | b in bs && b.ToolResult? && b.id != "" :: b.id }

  function IdsStep(pending: set<string>, l: Line): set<string> {
    match l
    case Assistant(Blocks(bs)) => pending + UsedIds(bs)
    case User(Blocks(bs)) => pending - AnsweredIds(bs)
    case _ => pending
  }

  function PendingIds(ls: seq<Line>): set<string> {
    if ls == [] then {} else IdsStep(PendingIds(ls[..|ls| - 1]), ls[|ls| - 1])
  }

  predicate Uses(l: Line, id: string) {
    l.Assistant? && l.content.Blocks? && id != "" && exists b <- l.content.blocks :: b.ToolUse? && b.id == id
  }

  /** The tool use `id` of line k has no result on a later line. */
  predicate Unanswered(ls: seq<Line>, k: int, id: string) {
    0 <= k < |ls| && Uses(ls[k], id) && forall j | k < j < |ls| :: !Answers(ls[j], id)
  }

  lemma IdsStepMeans(pending: set<string>, l: Line, id: string)
    ensures id in IdsStep(pending, l) <==> Uses(l, id) || (id in pending && !Answers(l, id))
  {
  }

  /** The set holds exactly the ids of the unanswered uses. */
  lemma {:induction false} SetScanIsDeclared(ls: seq<Line>, id: string)
    ensures id in PendingIds(ls) <==> exists k :: Unanswered(ls, k, id)
  {
    hide Uses, Answers, IdsStep;
    if ls != [] {
      var n := |ls| - 1;
      SetScanIsDeclared(ls[..n], id);
      IdsStepMeans(PendingIds(ls[..n]), ls[n], id);
      if Uses(ls[n], id) {
        assert Unanswered(ls, n, id);
      } else if id in PendingIds(ls[..n]) {
        var k :| Unanswered(ls[..n], k, id);
        assert !Answers(ls[n], id) ==> Unanswered(ls, k, id);
        assert forall k :: Unanswered(ls, k, id) ==> k < n;
      } else {
        forall k ensures !Unanswered(ls, k, id) {
          assert !Unanswered(ls[..n], k, id);
          if Unanswered(ls, k, id) { UnansweredInit(ls, k, id); }
        }
      }
    }
  }

  lemma UnansweredInit(ls: seq<Line>, k: int, id: string)
    requires Unanswered(ls, k, id) && k < |ls| - 1
    ensures Unanswered(ls[..|ls| - 1], k, id)
  {
    hide Uses, Answers;
  }

  /** Cutting lines off the front removes exactly the uses on those lines. */
  lemma UnansweredSuffix(a: seq<Line>, b: seq<Line>, k: int, id: string)
    requires k >= |a|
    ensures Unanswered(a + b, k, id) <==> Unanswered(b, k - |a|, id)
  {
    hide Uses, Answers;
    if Unanswered(a + b, k, id) {
      forall j | k - |a| < j < |b| ensures !Answers(b[j], id) { assert b[j] == (a + b)[j + |a|]; }
    }
  }

  /** What the hook decides, in terms of the whole transcript: some tool use among the whole lines
      of the last 32 KiB has no later result. So a positive answer is never wrong, and a negative
      one can only miss a use that lies further back. */
  lemma ParentToolUseIsDeclared(file: Bytes, decode: Bytes -> Option<Line>)
    ensures var p := AfterCut(file); var ls := Entries(file, decode);
            PendingIds(Entries(file[p..], decode)) != {}
            <==> exists k, id :: k >= |Entries(file[..p], decode)| && Unanswered(ls, k, id)
  {
    hide Entries, Unanswered, PendingIds;
    var p := AfterCut(file);
    AfterCutAligned(file);
    SplitEntries(file, p, decode);
    var a, b := Entries(file[..p], decode), Entries(file[p..], decode);
    if PendingIds(b) != {} {
      var id :| id in PendingIds(b);
      SetScanIsDeclared(b, id);
      var k :| Unanswered(b, k, id);
      assert k >= 0 by { UnansweredInside(b, k, id); }
      UnansweredSuffix(a, b, k + |a|, id);
      assert Unanswered(a + b, k + |a|, id);
    }
    if k, id :| k >= |a| && Unanswered(a + b, k, id) {
      UnansweredSuffix(a, b, k, id);
      SetScanIsDeclared(b, id);
    }
  }

  lemma UnansweredInside(ls: seq<Line>, k: int, id: string)
    requires Unanswered(ls, k, id)
    ensures 0 <= k < |ls|
  {
  }

  lemma OneMoreId(ls: seq<Line>, l: Line)
    ensures PendingIds(ls + [l]) == IdsStep(PendingIds(ls), l)
  {
    assert (ls + [l])[..|ls|] == ls;
  }

  lemma NoIds()
    ensures PendingIds([]) == {}
  {
  }

  /** Skips the partial first line of the tail. */
  method WholeLinesStart(file: Bytes) returns (start: nat)
    ensures start == AfterCut(file)
  {
    if |file| <= TAIL_SIZE { return 0; }
    var tail := file[|file| - TAIL_SIZE..];
    var nl := LineEnd(tail);
    if nl == |tail| { return |file|; }
    return |file| - TAIL_SIZE + nl + 1;
  }

  /** One line of the id-set scan. */
  method UpdateIds(before: set<string>, l: Line) returns (pending: set<string>)
    ensures pending == IdsStep(before, l)
    ensures l.Assistant? && l.content.Blocks? ==>
              forall id :: id in pending <==>
                id in before || (id != "" && exists b <- l.content.blocks :: b.ToolUse? && b.id == id)
    ensures l.User? && l.content.Blocks? ==>
              forall id :: id in pending <==>
                id in before && !(id != "" && exists b <- l.content.blocks :: b.ToolResult? && b.id == id)
    ensures l.Other? || l.content.NotBlocks? ==> pending == before
  {
    pending := before;
    if l.Other? || l.content.NotBlocks? { return; }
    var bs := l.content.blocks;
    var i := 0;
    while i < |bs|
      invariant i <= |bs|
      invariant pending == if l.Assistant? then before + UsedIds(bs[..i]) else before - AnsweredIds(bs[..i])
    {
      var b := bs[i];
      assert bs[..i + 1] == bs[..i] + [b];
      if l.Assistant? && b.ToolUse? && b.id != "" { pending := pending + {b.id}; }
      if l.User? && b.ToolResult? && b.id != "" { pending := pending - {b.id}; }
      i := i + 1;
    }
    assert bs[..i] == bs;
  }

  method HasPendingParentToolUse(file: Bytes, decode: Bytes -> Option<Line>) returns (r: bool)
    ensures var p := AfterCut(file);
            r <==> exists k, id :: k >= |Entries(file[..p], decode)| && Unanswered(Entries(file, decode), k, id)
  {
    hide PendingIds, IdsStep, Unanswered, LinesOf, AfterCut;
    ParentToolUseIsDeclared(file, decode);
    var start := WholeLinesStart(file);
    var raw := LinesOf(file[start..]);
    var pending: set<string> := {};
    var i := 0;
    assert PendingIds([]) == {} by { NoIds(); }
    while i < |raw|
      invariant i <= |raw|
      invariant pending == PendingIds(Decode(raw[..i], decode))
    {
      DecodeOneMore(raw, i, decode);
      ghost var ls := Decode(raw[..i], decode);
      assert ls + [] == ls;
      i := i + 1;
      if raw[i - 1] == [] { continue; }
      var l := decode(raw[i - 1]);
      if l.None? { continue; }
      OneMoreId(ls, l.value);
      pending := UpdateIds(pending, l.value);
    }
    assert raw[..i] == raw;
    r := pending != {};
  }

  // ----- the scans that remember one line -----

  /** Three scans of the dashboard: for one named tool, for any tool, for a blocking tool. */
  datatype Kind = ForCall(name: string) | ForAnyUse | ForBlocking

  function BlockTool(b: Block): Tool {
    if b.ToolUse? && b.name == PLAN then Plan else if b.ToolUse? && b.name == QUESTION then Question else NoTool
  }

  function LastTool(bs: seq<Block>): (t: Tool)
    ensures t.NoTool? <==> forall b <- bs :: BlockTool(b).NoTool?
  {
    if bs == [] then NoTool
    else if !BlockTool(bs[|bs| - 1]).NoTool? then BlockTool(bs[|bs| - 1])
    else LastTool(bs[..|bs| - 1])
  }

  function LineTool(l: Line): Tool { if l.Assistant? && l.content.Blocks? then LastTool(l.content.blocks) else NoTool }

  /** The id recorded for a question: the one of the first question block of the message. */
  function QuestionID(bs: seq<Block>): string {
    if bs == [] then "" else if BlockTool(bs[0]).Question? then bs[0].id else QuestionID(bs[1..])
  }

  function AskedID(l: Line): string { if l.Other? || l.content.NotBlocks? then "" else QuestionID(l.content.blocks) }

  predicate UsesTool(l: Line) { l.Assistant? && l.content.Blocks? && exists b <- l.content.blocks :: b.ToolUse? }

  predicate HasResult(l: Line) { l.User? && l.content.Blocks? && exists b <- l.content.blocks :: b.ToolResult? }

  /** The line makes a call the scan waits for. */
  predicate Sets(kind: Kind, l: Line) {
    match kind
    case ForCall(name) => Calls(l, name)
    case ForAnyUse => UsesTool(l)
    case ForBlocking => !LineTool(l).NoTool?
  }

  /** The line ends the wait that line `from` began. */
  predicate Ends(kind: Kind, from: Line, l: Line) {
    match kind
    case ForCall(name) => Human(l) || Answers(l, AskedID(from))
    case ForAnyUse => (l.Assistant? && l.content.Blocks?) || HasResult(l)
    case ForBlocking => Human(l)
  }

  /** The line whose call the one-pass scan still waits for at the end. */
  function Standing(ls: seq<Line>, kind: Kind): (r: Option<nat>)
    ensures r.Some? ==> r.value < |ls| && Sets(kind, ls[r.value])
  {
    if ls == [] then None
    else
      var n := |ls| - 1;
      var before := Standing(ls[..n], kind);
      if Sets(kind, ls[n]) then Some(n)
      else if before.Some? && Ends(kind, ls[before.value], ls[n]) then None
      else before
  }

  /** Line k made the last such call, and nothing later ends the wait. */
  predicate Stands(ls: seq<Line>, kind: Kind, k: int) {
    && 0 <= k < |ls| && Sets(kind, ls[k])
    && forall j | k < j < |ls| :: !Sets(kind, ls[j]) && !Ends(kind, ls[k], ls[j])
  }

  lemma {:induction false} ScanIsDeclared(ls: seq<Line>, kind: Kind, k: nat)
    ensures Standing(ls, kind) == Some(k) <==> Stands(ls, kind, k)
  {
    hide Sets, Ends;
    if ls != [] {
      var n := |ls| - 1;
      ScanIsDeclared(ls[..n], kind, k);
      if k < n {
        assert ls[..n][k] == ls[k];
        assert Stands(ls, kind, k) <==> Stands(ls[..n], kind, k) && !Sets(kind, ls[n]) && !Ends(kind, ls[k], ls[n]) by {
          StandsInit(ls, kind, k);
        }
      }
    }
  }

  lemma StandsInit(ls: seq<Line>, kind: Kind, k: nat)
    requires k < |ls| - 1
    ensures var n := |ls| - 1;
            Stands(ls, kind, k) <==> Stands(ls[..n], kind, k) && !Sets(kind, ls[n]) && !Ends(kind, ls[k], ls[n])
  {
    hide Sets, Ends;
    var n := |ls| - 1;
    if Stands(ls, kind, k) {
      forall j | k < j < n ensures !Sets(kind, ls[..n][j]) && !Ends(kind, ls[..n][k], ls[..n][j]) {
        assert ls[..n][j] == ls[j];
      }
    }
    if Stands(ls[..n], kind, k) && !Sets(kind, ls[n]) && !Ends(kind, ls[k], ls[n]) {
      forall j | k < j < |ls| ensures !Sets(kind, ls[j]) && !Ends(kind, ls[k], ls[j]) {
        assert j < n ==> ls[..n][j] == ls[j];
      }
    }
  }

  lemma StandsSuffix(a: seq<Line>, b: seq<Line>, kind: Kind, k: nat)
    requires k >= |a|
    ensures Stands(a + b, kind, k) <==> Stands(b, kind, k - |a|)
  {
    hide Sets, Ends;
    if Stands(a + b, kind, k) {
      forall j | k - |a| < j < |b| ensures !Sets(kind, b[j]) && !Ends(kind, b[k - |a|], b[j]) {
        assert b[j] == (a + b)[j + |a|];
      }
    }
  }

  /** The fragment at the cut decodes to a call that the whole lines after it leave standing. */
  predicate FragmentStands(file: Bytes, decode: Bytes -> Option<Line>, kind: Kind) {
    Fragment(file, decode) != [] && Stands(Fragment(file, decode) + Entries(file[SeenFrom(file)..], decode), kind, 0)
  }

  /** The call that stands in the whole transcript was made on the whole lines of the tail. */
  ghost predicate StandsInTail(file: Bytes, decode: Bytes -> Option<Line>, kind: Kind) {
    exists k :: k >= |Entries(file[..SeenFrom(file)], decode)| && Stands(Entries(file, decode), kind, k)
  }

  /** A scan of the tail decides about the whole transcript: it is positive exactly when the call
      that stands there was made in the tail, or the fragment at the cut passes for one. */
  lemma TailScanIsDeclared(file: Bytes, decode: Bytes -> Option<Line>, kind: Kind)
    ensures Standing(TailLines(file, decode), kind).Some?
            <==> StandsInTail(file, decode, kind) || FragmentStands(file, decode, kind)
  {
    hide Entries, Stands, Standing, Fragment, SeenFrom, TailLines;
    TailEntries(file, decode);
    var p := SeenFrom(file);
    var a, b, x := Entries(file[..p], decode), Entries(file[p..], decode), Fragment(file, decode);
    var r := Standing(x + b, kind);
    if r.Some? {
      ScanIsDeclared(x + b, kind, r.value);
      if r.value >= |x| {
        StandsSuffix(x, b, kind, r.value);
        StandsSuffix(a, b, kind, r.value - |x| + |a|);
        assert Stands(a + b, kind, r.value - |x| + |a|);
      }
    }
    if k :| k >= |a| && Stands(a + b, kind, k) {
      StandsSuffix(a, b, kind, k);
      StandsSuffix(x, b, kind, k - |a| + |x|);
      ScanIsDeclared(x + b, kind, k - |a| + |x|);
    }
    if FragmentStands(file, decode, kind) { ScanIsDeclared(x + b, kind, 0); }
  }

  /** A tail scan is wrong about the whole transcript exactly when only the fragment stands. */
  lemma TailScanSound(file: Bytes, decode: Bytes -> Option<Line>, kind: Kind)
    ensures Standing(TailLines(file, decode), kind).Some? && Standing(Entries(file, decode), kind).None?
            <==> FragmentStands(file, decode, kind) && Standing(Entries(file, decode), kind).None?
  {
    hide Entries, Stands, Standing, SeenFrom, TailLines, FragmentStands;
    TailScanIsDeclared(file, decode, kind);
    if StandsInTail(file, decode, kind) {
      var k :| k >= |Entries(file[..SeenFrom(file)], decode)| && Stands(Entries(file, decode), kind, k);
      assert k >= 0;
      ScanIsDeclared(Entries(file, decode), kind, k);
    }
  }

  /** So it is sound for every file cut at a line start or at a fragment that is no call. */
  lemma TailScanSoundAt(file: Bytes, decode: Bytes -> Option<Line>, kind: Kind)
    requires forall l <- Fragment(file, decode) :: !Sets(kind, l)
    requires Standing(TailLines(file, decode), kind).Some?
    ensures Standing(Entries(file, decode), kind).Some?
  {
    hide Entries, Standing, SeenFrom, TailLines, Fragment, Sets;
    TailScanSound(file, decode, kind);
    FragmentIsCall(file, decode, kind);
  }

  lemma FragmentIsCall(file: Bytes, decode: Bytes -> Option<Line>, kind: Kind)
    ensures FragmentStands(file, decode, kind) ==> Fragment(file, decode) != [] && Sets(kind, Fragment(file, decode)[0])
  {
    hide Entries, SeenFrom, Fragment, Sets;
  }

  /** Whenever the cut falls into a line that does not decode, at a place from where the rest of it
      does, to a call that nothing after it ends, the tail scan is positive and nothing is pending. */
  lemma FragmentCanMislead(x: Bytes, c: Bytes, rest: Bytes, call: Line, kind: Kind, decode: Bytes -> Option<Line>)
    requires x != [] && NEWLINE !in x + c && |c| + 1 + |rest| == TAIL_SIZE
    requires DecodeLine(DropReturn(x + c), decode) == [] && Entries(rest, decode) == []
    requires DecodeLine(DropReturn(c), decode) == [call] && Sets(kind, call)
    ensures var file := (x + c) + ([NEWLINE] + rest);
            Standing(TailLines(file, decode), kind).Some? && Standing(Entries(file, decode), kind).None?
  {
    hide Entries, DecodeLine, DropReturn, Sets, LineEnd;
    var file := (x + c) + ([NEWLINE] + rest);
    assert Tail(file) == c + ([NEWLINE] + rest);
    assert forall b <- c :: b in x + c;
    LineRead(x + c, rest, decode);
    LineRead(c, rest, decode);
    TailLinesAre(file, decode);
    assert [call] + [] == [call];
    NothingStands(kind);
    ScanIsDeclared([call], kind, 0);
  }

  /** The first line of a file, which is terminated, and the rest. */
  lemma LineRead(line: Bytes, rest: Bytes, decode: Bytes -> Option<Line>)
    requires NEWLINE !in line
    ensures var file := line + ([NEWLINE] + rest);
            && LineEnd(file) == |line|
            && Entries(file, decode) == DecodeLine(DropReturn(line), decode) + Entries(rest, decode)
  {
    hide Entries, DecodeLine, DropReturn, LineEnd;
    var file := line + ([NEWLINE] + rest);
    FirstNewline(line, rest);
    FirstLineRead(file, decode);
    assert file[..|line|] == line && file[|line| + 1..] == rest;
  }

  // ----- what the scans look for, block by block -----

  /** The tail is the last 32 KiB, or the whole of a shorter file. */
  lemma TailMeans(file: Bytes)
    ensures |Tail(file)| == (if |file| > 32768 then 32768 else |file|) && Tail(file) == file[|file| - |Tail(file)|..]
  {
  }

  /** The hook's scan starts at the first line that begins inside the tail of a longer file. */
  lemma AfterCutMeans(file: Bytes)
    ensures var c, p := |file| - |Tail(file)|, AfterCut(file);
            && (c == 0 ==> p == 0)
            && (c > 0 ==>
                  && (p == |file| || (c < p && file[p - 1] == 10))
                  && forall i | c <= i < p - 1 :: file[i] != 10)
  {
    var c := |file| - |Tail(file)|;
    if c > 0 {
      var tail := file[c..];
      forall i | c <= i < AfterCut(file) - 1 ensures file[i] != 10 {
        assert file[i] == tail[i - c];
        BeforeLineEnd(tail, i - c);
      }
    }
  }

  lemma {:induction false} BeforeLineEnd(b: Bytes, i: nat)
    requires i < LineEnd(b)
    ensures b[i] != 10
  {
    if i > 0 { BeforeLineEnd(b[1..], i - 1); }
  }

  /** The any-tool scan is about the last message with blocks alone: it waits exactly when that calls some
      tool and no later user line brings any result. */
  lemma LastMessageWaits(ls: seq<Line>, k: nat)
    requires k < |ls| && ls[k].Assistant? && ls[k].content.Blocks?
    requires forall j | k < j < |ls| :: !(ls[j].Assistant? && ls[j].content.Blocks?)
    ensures Standing(ls, ForAnyUse).Some?
       <==> && (exists b <- ls[k].content.blocks :: b.ToolUse?)
            && forall j | k < j < |ls| && ls[j].User? && ls[j].content.Blocks? ::
                 forall b <- ls[j].content.blocks :: !b.ToolResult?
  {
    var r := Standing(ls, ForAnyUse);
    if r.Some? {
      ScanIsDeclared(ls, ForAnyUse, r.value);
      assert r.value == k;
    }
    ScanIsDeclared(ls, ForAnyUse, k);
  }

  lemma NoMessageWaits(ls: seq<Line>)
    requires forall l <- ls :: !(l.Assistant? && l.content.Blocks?)
    ensures Standing(ls, ForAnyUse).None?
  {
    var r := Standing(ls, ForAnyUse);
  }

  /** A use of one of the two tools that wait for the user. */
  predicate IsBlockingUse(b: Block) { b.ToolUse? && b.name in {"ExitPlanMode", "AskUserQuestion"} }

  /** The blocking tool of a message is the one its last such block names. */
  lemma {:induction false} LastToolMeans(bs: seq<Block>, i: nat)
    requires i < |bs| && IsBlockingUse(bs[i]) && forall j | i < j < |bs| :: !IsBlockingUse(bs[j])
    ensures LastTool(bs) == if bs[i].name == "ExitPlanMode" then Plan else Question
  {
    if i < |bs| - 1 { LastToolMeans(bs[..|bs| - 1], i); }
  }

  lemma NoBlockingUse(bs: seq<Block>)
    requires forall b <- bs :: !IsBlockingUse(b)
    ensures LastTool(bs) == NoTool
  {
  }

  /** The whole-file verdict, block by block: the last message with a blocking use decides, by its last such
      block, unless a human turn follows it. */
  lemma BlockingMeans(ls: seq<Line>, k: nat, i: nat)
    requires k < |ls| && ls[k].Assistant? && ls[k].content.Blocks? && i < |ls[k].content.blocks|
    requires var bs := ls[k].content.blocks; IsBlockingUse(bs[i]) && forall j | i < j < |bs| :: !IsBlockingUse(bs[j])
    requires forall j | k < j < |ls| && ls[j].Assistant? && ls[j].content.Blocks? ::
               forall b <- ls[j].content.blocks :: !IsBlockingUse(b)
    ensures var r := Standing(ls, ForBlocking);
            var verdict := if r.Some? then LineTool(ls[r.value]) else NoTool;
            verdict == if exists j :: k < j < |ls| && Human(ls[j]) then NoTool
                       else if ls[k].content.blocks[i].name == "ExitPlanMode" then Plan else Question
  {
    hide LastTool;
    LastToolMeans(ls[k].content.blocks, i);
    forall j | k < j < |ls| ensures LineTool(ls[j]).NoTool? {
      if ls[j].Assistant? && ls[j].content.Blocks? { NoBlockingUse(ls[j].content.blocks); }
    }
    var r := Standing(ls, ForBlocking);
    if r.Some? {
      ScanIsDeclared(ls, ForBlocking, r.value);
      assert r.value <= k;
      assert r.value == k;
    }
    ScanIsDeclared(ls, ForBlocking, k);
  }

  // ----- the scans against each other -----

  lemma BlockingCalls(l: Line)
    ensures !LineTool(l).NoTool? <==> Calls(l, PLAN) || Calls(l, QUESTION)
  {
  }

  /** Some blocking call stands whenever a plan or question call does, and it is no older. */
  lemma {:induction false} NamedCallBlocks(ls: seq<Line>, name: string)
    requires name in {PLAN, QUESTION} && Standing(ls, ForCall(name)).Some?
    ensures Standing(ls, ForBlocking).Some?
    ensures Standing(ls, ForBlocking).value >= Standing(ls, ForCall(name)).value
  {
    hide Calls, LineTool, Human, Answers, AskedID;
    var n := |ls| - 1;
    BlockingCalls(ls[n]);
    if !Calls(ls[n], name) { NamedCallBlocks(ls[..n], name); }
  }

  /** When the whole-file scan answers "question", the question scan agrees exactly when no result
      has come for it: an answer posted as a tool result is no human turn. */
  lemma {:induction false} QuestionScansAgree(ls: seq<Line>)
    requires var r := Standing(ls, ForBlocking); r.Some? && Calls(ls[r.value], QUESTION)
    ensures var k := Standing(ls, ForBlocking).value;
            Standing(ls, ForCall(QUESTION)) == Some(k) || Standing(ls, ForCall(QUESTION)) == None
    ensures var k := Standing(ls, ForBlocking).value;
            Standing(ls, ForCall(QUESTION)).Some? <==> forall j | k < j < |ls| :: !Answers(ls[j], AskedID(ls[k]))
  {
    hide Calls, LineTool, Human, Answers, AskedID;
    var n := |ls| - 1;
    BlockingCalls(ls[n]);
    var k := Standing(ls, ForBlocking).value;
    if k < n {
      QuestionScansAgree(ls[..n]);
      assert ls[..n][k] == ls[k];
      assert (forall j | k < j < |ls| :: !Answers(ls[j], AskedID(ls[k])))
        <==> (forall j | k < j < n :: !Answers(ls[..n][j], AskedID(ls[k]))) && !Answers(ls[n], AskedID(ls[k])) by {
        Extended(ls, k);
      }
    }
  }

  lemma Extended(ls: seq<Line>, k: nat)
    requires k < |ls| - 1
    ensures var n := |ls| - 1; var id := AskedID(ls[k]);
            (forall j | k < j < |ls| :: !Answers(ls[j], id))
            <==> (forall j | k < j < n :: !Answers(ls[..n][j], id)) && !Answers(ls[n], id)
  {
    hide Answers, AskedID;
    var n := |ls| - 1;
    assert forall j | k < j < n :: ls[..n][j] == ls[j];
  }

  // ----- the scanning loops -----

  lemma NothingStands(kind: Kind)
    ensures Standing([], kind) == None && InputAfter([]) == None
  {
  }

  lemma StandingOneMore(ls: seq<Line>, l: Line, kind: Kind)
    ensures Standing(ls + [l], kind) ==
              if Sets(kind, l) then Some(|ls|)
              else var before := Standing(ls, kind);
                   if before.Some? && Ends(kind, ls[before.value], l) then None else before
    ensures forall k | 0 <= k < |ls| :: (ls + [l])[k] == ls[k]
    ensures (ls + [l])[|ls|] == l
  {
    hide Sets, Ends;
    assert (ls + [l])[..|ls|] == ls;
  }

  /** The local variables of a scan for one call: found, humanAfter and lastID. */
  datatype CallState = CallState(found: bool, humanAfter: bool, lastID: string)

  ghost predicate CallStateOf(s: CallState, ls: seq<Line>, name: string) {
    var r := Standing(ls, ForCall(name));
    (s.found && !s.humanAfter <==> r.Some?) && (r.Some? ==> s.lastID == AskedID(ls[r.value]))
  }

  method FindCall(bs: seq<Block>, name: string) returns (found: bool)
    ensures found <==> exists b <- bs :: b.ToolUse? && b.name == name
  {
    for i := 0 to |bs|
      invariant forall b <- bs[..i] :: !(b.ToolUse? && b.name == name)
    {
      if bs[i].ToolUse? && bs[i].name == name { return true; }
      assert bs[..i + 1] == bs[..i] + [bs[i]];
    }
    assert bs[..|bs|] == bs;
    found := false;
  }

  method ToolUseID(bs: seq<Block>) returns (id: string)
    ensures id == QuestionID(bs)
    ensures (forall b <- bs :: !(b.ToolUse? && b.name == "AskUserQuestion")) ==> id == ""
    ensures forall i | 0 <= i < |bs| && bs[i].ToolUse? && bs[i].name == "AskUserQuestion"
                       && forall j | 0 <= j < i :: !(bs[j].ToolUse? && bs[j].name == "AskUserQuestion") ::
              id == bs[i].id
  {
    for i := 0 to |bs|
      invariant QuestionID(bs) == QuestionID(bs[i..])
      invariant forall j | 0 <= j < i :: !(bs[j].ToolUse? && bs[j].name == "AskUserQuestion")
    {
      assert bs[i..][1..] == bs[i + 1..];
      if bs[i].ToolUse? && bs[i].name == QUESTION { return bs[i].id; }
    }
    id := "";
  }

  method IsHumanUserEntry(l: Line) returns (human: bool)
    requires l.User?
    ensures human <==> Human(l)
    ensures !human <==> l.content.Blocks? && forall b <- l.content.blocks :: b.ToolResult?
  {
    if l.content.NotBlocks? { return true; }
    var bs := l.content.blocks;
    for i := 0 to |bs|
      invariant forall b <- bs[..i] :: b.ToolResult?
    {
      if !bs[i].ToolResult? { return true; }
      assert bs[..i + 1] == bs[..i] + [bs[i]];
    }
    assert bs[..|bs|] == bs;
    human := false;
  }

  method HasToolResultFor(l: Line, id: string) returns (answered: bool)
    requires l.User?
    ensures answered <==> Answers(l, id)
    ensures answered <==> id != "" && l.content.Blocks? && exists b <- l.content.blocks :: b.ToolResult? && b.id == id
  {
    if id == "" || l.content.NotBlocks? { return false; }
    var bs := l.content.blocks;
    for i := 0 to |bs|
      invariant ToolResult(id) !in bs[..i]
    {
      if bs[i].ToolResult? && bs[i].id == id { return true; }
      assert bs[..i + 1] == bs[..i] + [bs[i]];
    }
    assert bs[..|bs|] == bs;
    forall b | b in bs ensures !(b.ToolResult? && b.id == id) {
      assert b.ToolResult? && b.id == id ==> b == ToolResult(id);
    }
    answered := false;
  }

  method TakeCallLine(s0: CallState, l: Line, name: string, ghost ls: seq<Line>) returns (s: CallState)
    requires CallStateOf(s0, ls, name)
    ensures CallStateOf(s, ls + [l], name)
  {
    hide Standing;
    StandingOneMore(ls, l, ForCall(name));
    s := s0;
    if l.Assistant? && l.content.Blocks? {
      var found := FindCall(l.content.blocks, name);
      if found {
        var id := ToolUseID(l.content.blocks);
        s := CallState(true, false, id);
      }
    } else if l.User? && s.found {
      var human := IsHumanUserEntry(l);
      var answered := HasToolResultFor(l, s.lastID);
      if human || answered { s := s.(humanAfter := true); }
    }
  }

  /** Pending calls of one tool, from the tail of the transcript. */
  method HasPendingToolCall(file: Bytes, decode: Bytes -> Option<Line>, name: string) returns (pending: bool)
    ensures pending <==> Standing(TailLines(file, decode), ForCall(name)).Some?
    ensures pending <==> StandsInTail(file, decode, ForCall(name)) || FragmentStands(file, decode, ForCall(name))
  {
    hide CallStateOf, ScannedLines, StandsInTail, FragmentStands, Standing;
    var raw := ScannedLines(file);
    var s := CallState(false, false, "");
    var i := 0;
    NoCallYet(s, name);
    while i < |raw|
      invariant i <= |raw|
      invariant CallStateOf(s, Decode(raw[..i], decode), name)
    {
      DecodeOneMore(raw, i, decode);
      ghost var ls := Decode(raw[..i], decode);
      assert ls + [] == ls;
      i := i + 1;
      if raw[i - 1] == [] { continue; }
      var l := decode(raw[i - 1]);
      if l.None? { continue; }
      s := TakeCallLine(s, l.value, name, ls);
    }
    assert raw[..i] == raw;
    pending := s.found && !s.humanAfter;
    CallVerdict(s, TailLines(file, decode), name);
    TailScanIsDeclared(file, decode, ForCall(name));
  }

  lemma NoCallYet(s: CallState, name: string)
    requires !s.found
    ensures CallStateOf(s, [], name)
  {
  }

  lemma CallVerdict(s: CallState, ls: seq<Line>, name: string)
    requires CallStateOf(s, ls, name)
    ensures s.found && !s.humanAfter <==> Standing(ls, ForCall(name)).Some?
    ensures Standing(ls, ForCall(name)).Some? ==> s.lastID == AskedID(ls[Standing(ls, ForCall(name)).value])
  {
  }

  /** hasToolUse and toolResultAfter after one more line. */
  method TakeUseLine(hasToolUse0: bool, resultAfter0: bool, l: Line, ghost ls: seq<Line>)
    returns (hasToolUse: bool, resultAfter: bool)
    requires hasToolUse0 && !resultAfter0 <==> Standing(ls, ForAnyUse).Some?
    ensures hasToolUse && !resultAfter <==> Standing(ls + [l], ForAnyUse).Some?
  {
    hide Standing;
    StandingOneMore(ls, l, ForAnyUse);
    hasToolUse, resultAfter := hasToolUse0, resultAfter0;
    if l.Other? || l.content.NotBlocks? { return; }
    var bs := l.content.blocks;
    var found := false;
    for i := 0 to |bs|
      invariant found <==> exists b <- bs[..i] :: if l.Assistant? then b.ToolUse? else b.ToolResult?
    {
      assert bs[..i + 1] == bs[..i] + [bs[i]];
      found := found || if l.Assistant? then bs[i].ToolUse? else bs[i].ToolResult?;
    }
    assert bs[..|bs|] == bs;
    if l.Assistant? {
      hasToolUse, resultAfter := found, false;
    } else if hasToolUse && found {
      resultAfter := true;
    }
  }

  /** Whether the last assistant message waits for a tool result, from the tail of the transcript. */
  method HasPendingToolUse(file: Bytes, decode: Bytes -> Option<Line>) returns (pending: bool)
    ensures pending <==> Standing(TailLines(file, decode), ForAnyUse).Some?
    ensures pending <==> StandsInTail(file, decode, ForAnyUse) || FragmentStands(file, decode, ForAnyUse)
  {
    hide ScannedLines, StandsInTail, FragmentStands, Standing;
    var raw := ScannedLines(file);
    var hasToolUse, resultAfter := false, false;
    var i := 0;
    NothingStands(ForAnyUse);
    while i < |raw|
      invariant i <= |raw|
      invariant hasToolUse && !resultAfter <==> Standing(Decode(raw[..i], decode), ForAnyUse).Some?
    {
      DecodeOneMore(raw, i, decode);
      ghost var ls := Decode(raw[..i], decode);
      assert ls + [] == ls;
      i := i + 1;
      if raw[i - 1] == [] { continue; }
      var l := decode(raw[i - 1]);
      if l.None? { continue; }
      hasToolUse, resultAfter := TakeUseLine(hasToolUse, resultAfter, l.value, ls);
    }
    assert raw[..i] == raw;
    pending := hasToolUse && !resultAfter;
    TailScanIsDeclared(file, decode, ForAnyUse);
  }

  ghost predicate BlockingStateOf(lastTool: Tool, humanAfter: bool, ls: seq<Line>) {
    var r := Standing(ls, ForBlocking);
    (!lastTool.NoTool? && !humanAfter <==> r.Some?) && (r.Some? ==> lastTool == LineTool(ls[r.value]))
  }

  /** The last blocking call among the blocks of one message wins. */
  method TakeBlocks(lastTool0: Tool, humanAfter0: bool, bs: seq<Block>) returns (lastTool: Tool, humanAfter: bool)
    ensures if LastTool(bs).NoTool? then lastTool == lastTool0 && humanAfter == humanAfter0
            else lastTool == LastTool(bs) && !humanAfter
  {
    lastTool, humanAfter := lastTool0, humanAfter0;
    for i := 0 to |bs|
      invariant if LastTool(bs[..i]).NoTool? then lastTool == lastTool0 && humanAfter == humanAfter0
                else lastTool == LastTool(bs[..i]) && !humanAfter
    {
      assert bs[..i + 1][..i] == bs[..i];
      if !bs[i].ToolUse? { continue; }
      if bs[i].name == PLAN { lastTool, humanAfter := Plan, false; }
      else if bs[i].name == QUESTION { lastTool, humanAfter := Question, false; }
    }
    assert bs[..|bs|] == bs;
  }

  method TakeBlockingLine(lastTool0: Tool, humanAfter0: bool, l: Line, ghost ls: seq<Line>)
    returns (lastTool: Tool, humanAfter: bool)
    requires BlockingStateOf(lastTool0, humanAfter0, ls)
    ensures BlockingStateOf(lastTool, humanAfter, ls + [l])
  {
    hide Standing, LastTool;
    StandingOneMore(ls, l, ForBlocking);
    lastTool, humanAfter := lastTool0, humanAfter0;
    if l.Assistant? && l.content.Blocks? {
      lastTool, humanAfter := TakeBlocks(lastTool0, humanAfter0, l.content.blocks);
    } else if l.User? && lastTool != NoTool {
      var human := IsHumanUserEntry(l);
      if human { humanAfter := true; }
    }
  }

  /** The blocking tool the agent waits for, from the whole transcript. */
  method LastPendingBlockingTool(file: Bytes, decode: Bytes -> Option<Line>) returns (verdict: Tool)
    ensures var ls := Entries(file, decode); var r := Standing(ls, ForBlocking);
            verdict == if r.Some? then LineTool(ls[r.value]) else NoTool
  {
    hide BlockingStateOf, LinesOf, Standing;
    var raw := LinesOf(file);
    var lastTool, humanAfter := NoTool, false;
    var i := 0;
    assert BlockingStateOf(NoTool, false, []) by { NoBlockingYet(); }
    while i < |raw|
      invariant i <= |raw|
      invariant BlockingStateOf(lastTool, humanAfter, Decode(raw[..i], decode))
    {
      DecodeOneMore(raw, i, decode);
      ghost var ls := Decode(raw[..i], decode);
      assert ls + [] == ls;
      i := i + 1;
      if raw[i - 1] == [] { continue; }
      var l := decode(raw[i - 1]);
      if l.None? { continue; }
      lastTool, humanAfter := TakeBlockingLine(lastTool, humanAfter, l.value, ls);
    }
    assert raw[..i] == raw;
    BlockingVerdict(lastTool, humanAfter, Entries(file, decode));
    if lastTool != NoTool && !humanAfter { return lastTool; }
    return NoTool;
  }

  lemma NoBlockingYet()
    ensures BlockingStateOf(NoTool, false, [])
  {
  }

  lemma BlockingVerdict(lastTool: Tool, humanAfter: bool, ls: seq<Line>)
    requires BlockingStateOf(lastTool, humanAfter, ls)
    ensures var r := Standing(ls, ForBlocking);
            (!lastTool.NoTool? && !humanAfter <==> r.Some?) && (r.Some? ==> lastTool == LineTool(ls[r.value]))
  {
  }

  // ----- the question panel -----

  /** The kept input of the questions so far. Appending no bytes to a nil slice leaves it nil. */
  function InputAfterBlocks(input: Option<string>, bs: seq<Block>): Option<string> {
    if bs == [] then input
    else
      var before, b := InputAfterBlocks(input, bs[..|bs| - 1]), bs[|bs| - 1];
      if BlockTool(b).Question? && (before.Some? || b.input != "") then Some(b.input) else before
  }

  function InputAfterLine(input: Option<string>, l: Line): Option<string> {
    if l.Assistant? && l.content.Blocks? then InputAfterBlocks(input, l.content.blocks) else input
  }

  function InputAfter(ls: seq<Line>): Option<string> {
    if ls == [] then None else InputAfterLine(InputAfter(ls[..|ls| - 1]), ls[|ls| - 1])
  }

  datatype PanelState = PanelState(input: Option<string>, lastID: string, humanAfter: bool)

  ghost predicate PanelStateOf(s: PanelState, ls: seq<Line>) {
    var r := Standing(ls, ForCall(QUESTION));
    && s.input == InputAfter(ls)
    && (s.input.None? ==> !s.humanAfter)
    && (s.input.Some? ==>
          (!s.humanAfter <==> r.Some?) && (r.Some? ==> s.lastID == AskedID(ls[r.value])))
  }

  lemma {:induction false} NoQuestionNoInput(input: Option<string>, bs: seq<Block>)
    ensures (forall b <- bs :: !BlockTool(b).Question?) ==> InputAfterBlocks(input, bs) == input
    ensures input.Some? ==> InputAfterBlocks(input, bs).Some?
  {
    if bs != [] { NoQuestionNoInput(input, bs[..|bs| - 1]); }
  }

  method TakePanelBlocks(s0: PanelState, bs: seq<Block>) returns (s: PanelState)
    ensures s.input == InputAfterBlocks(s0.input, bs)
    ensures if exists b <- bs :: BlockTool(b).Question? then s.lastID == QuestionID(bs) && !s.humanAfter else s == s0
  {
    s := s0;
    for i := 0 to |bs|
      invariant s.input == InputAfterBlocks(s0.input, bs[..i])
      invariant if exists b <- bs[..i] :: BlockTool(b).Question? then s.lastID == QuestionID(bs) && !s.humanAfter
                else s == s0
    {
      assert bs[..i + 1][..i] == bs[..i] && bs[..i + 1] == bs[..i] + [bs[i]];
      if !bs[i].ToolUse? || bs[i].name != QUESTION {
        assert !BlockTool(bs[i]).Question?;
        continue;
      }
      assert bs[i] in bs[..i + 1] && BlockTool(bs[i]).Question?;
      var id := ToolUseID(bs);
      var input := if s.input.Some? || bs[i].input != "" then Some(bs[i].input) else None;
      s := PanelState(input, id, false);
    }
    assert bs[..|bs|] == bs;
  }

  lemma InputOneMore(ls: seq<Line>, l: Line)
    ensures InputAfter(ls + [l]) == InputAfterLine(InputAfter(ls), l)
  {
    assert (ls + [l])[..|ls|] == ls;
  }

  method TakePanelLine(s0: PanelState, l: Line, ghost ls: seq<Line>) returns (s: PanelState)
    requires PanelStateOf(s0, ls)
    ensures PanelStateOf(s, ls + [l])
  {
    hide Standing, InputAfter, InputAfterBlocks;
    StandingOneMore(ls, l, ForCall(QUESTION));
    InputOneMore(ls, l);
    s := s0;
    if l.Assistant? && l.content.Blocks? {
      s := TakePanelBlocks(s0, l.content.blocks);
      NoQuestionNoInput(s0.input, l.content.blocks);
    } else if l.User? && s.input.Some? {
      var human := IsHumanUserEntry(l);
      var answered := HasToolResultFor(l, s.lastID);
      if human || answered { s := s.(humanAfter := true); }
    }
  }

  /** The question the panel shows: it shows one exactly when the question scan of the whole
      transcript has one standing and the input kept for it is there and parses. */
  method ReadPendingQuestionClaude(file: Bytes, decode: Bytes -> Option<Line>, parse: string -> bool)
    returns (id: Option<string>)
    ensures var ls := Entries(file, decode);
            var r, input := Standing(ls, ForCall(QUESTION)), InputAfter(ls);
            id == if r.Some? && input.Some? && parse(input.value) then Some(AskedID(ls[r.value])) else None
  {
    hide PanelStateOf, LinesOf, Standing, InputAfter;
    var raw := LinesOf(file);
    var s := PanelState(None, "", false);
    var i := 0;
    assert PanelStateOf(s, []) by { NoPanelYet(); }
    while i < |raw|
      invariant i <= |raw|
      invariant PanelStateOf(s, Decode(raw[..i], decode))
    {
      DecodeOneMore(raw, i, decode);
      ghost var ls := Decode(raw[..i], decode);
      assert ls + [] == ls;
      i := i + 1;
      if raw[i - 1] == [] { continue; }
      var l := decode(raw[i - 1]);
      if l.None? { continue; }
      s := TakePanelLine(s, l.value, ls);
    }
    assert raw[..i] == raw;
    PanelVerdict(s, Entries(file, decode));
    if s.input.None? || s.humanAfter { return None; }
    if !parse(s.input.value) { return None; }
    return Some(s.lastID);
  }

  lemma NoPanelYet()
    ensures PanelStateOf(PanelState(None, "", false), [])
  {
  }

  lemma PanelVerdict(s: PanelState, ls: seq<Line>)
    requires PanelStateOf(s, ls)
    ensures var r := Standing(ls, ForCall(QUESTION));
            && s.input == InputAfter(ls)
            && (s.input.Some? ==> (!s.humanAfter <==> r.Some?) && (r.Some? ==> s.lastID == AskedID(ls[r.value])))
  {
  }

  /** Input is kept from the first question that carries any. */
  lemma {:induction false} InputIsKept(ls: seq<Line>)
    ensures InputAfter(ls).Some? <==>
              exists k | 0 <= k < |ls| ::
                ls[k].Assistant? && ls[k].content.Blocks? && CarriesInput(ls[k].content.blocks)
  {
    hide CarriesInput;
    if ls != [] {
      var n := |ls| - 1;
      InputIsKept(ls[..n]);
      var l := ls[n];
      if l.Assistant? && l.content.Blocks? { BlocksKeepInput(InputAfter(ls[..n]), l.content.blocks); }
      if k :| 0 <= k < n && ls[k].Assistant? && ls[k].content.Blocks? && CarriesInput(ls[k].content.blocks) {
        assert ls[..n][k] == ls[k];
      }
    }
  }

  predicate AsksHere(b: Block) { b.ToolUse? && b.name == "AskUserQuestion" }

  lemma {:induction false} BlocksKeepLast(input: Option<string>, bs: seq<Block>, i: nat)
    requires i < |bs| && AsksHere(bs[i]) && forall j | i < j < |bs| :: !AsksHere(bs[j])
    ensures InputAfterBlocks(input, bs).Some? ==> InputAfterBlocks(input, bs).value == bs[i].input
  {
    if i < |bs| - 1 { BlocksKeepLast(input, bs[..|bs| - 1], i); }
  }

  /** The input kept is that of the last question asked. */
  lemma {:induction false} InputIsLast(ls: seq<Line>, k: nat, i: nat)
    requires k < |ls| && ls[k].Assistant? && ls[k].content.Blocks? && i < |ls[k].content.blocks|
    requires var bs := ls[k].content.blocks; AsksHere(bs[i]) && forall j | i < j < |bs| :: !AsksHere(bs[j])
    requires forall j | k < j < |ls| && ls[j].Assistant? && ls[j].content.Blocks? ::
               forall b <- ls[j].content.blocks :: !AsksHere(b)
    ensures InputAfter(ls).Some? ==> InputAfter(ls).value == ls[k].content.blocks[i].input
  {
    hide InputAfterBlocks;
    var n := |ls| - 1;
    if k < n {
      InputIsLast(ls[..n], k, i);
      if ls[n].Assistant? && ls[n].content.Blocks? { NoQuestionNoInput(InputAfter(ls[..n]), ls[n].content.blocks); }
    } else {
      BlocksKeepLast(InputAfter(ls[..n]), ls[n].content.blocks, i);
    }
  }

  predicate CarriesInput(bs: seq<Block>) { exists b <- bs :: BlockTool(b).Question? && b.input != "" }

  lemma {:induction false} BlocksKeepInput(input: Option<string>, bs: seq<Block>)
    ensures InputAfterBlocks(input, bs).Some? <==> input.Some? || CarriesInput(bs)
  {
    if bs != [] {
      var n := |bs| - 1;
      BlocksKeepInput(input, bs[..n]);
      assert bs == bs[..n] + [bs[n]];
    }
  }
}
