/** Expanding bare skill commands of a message into Codex's plugin-qualified form. */
module Shortkeys {
  import opened Seqs
  import opened Text

  /** Unicode's letters and digits, as far as this component relies on them. */
  datatype Unicode = Unicode(letter: char -> bool, digit: char -> bool)

  ghost predicate Standard(u: Unicode) {
    && (forall c: char :: (c as int) < 128 ==> (u.letter(c) <==> 'a' <= c <= 'z' || 'A' <= c <= 'Z'))
    && (forall c: char :: (c as int) < 128 ==> (u.digit(c) <==> '0' <= c <= '9'))
    && (forall c: char :: IsSpace(c) ==> !u.letter(c) && !u.digit(c))
  }

  predicate CommandChar(u: Unicode, c: char) { u.letter(c) || u.digit(c) || c == '-' || c == '_' || c == ':' }

  lemma CommandChars(u: Unicode)
    requires Standard(u)
    ensures !CommandChar(u, '$') && CommandChar(u, ':') && CommandChar(u, '-')
    ensures forall c | 'a' <= c <= 'z' :: CommandChar(u, c)
    ensures forall c | IsSpace(c) :: !CommandChar(u, c)
  {
  }

  const PREFIX := "$agent-dashboard:"
  const PLUGIN := "agent-dashboard:"

  function ValidSkills(skills: seq<string>): set<string> { set s | s in skills && s != "" && s != "(none)" }

  // ----- what is expanded -----

  predicate Boundary(text: string, i: int) { i == 0 || (0 < i <= |text| && IsSpace(text[i - 1])) }

  /** text[i..e] is a dollar sign and the longest run of command characters behind it. */
  predicate Token(u: Unicode, text: string, i: int, e: int) {
    && 0 <= i < e <= |text| && text[i] == '$'
    && (forall j | i < j < e :: CommandChar(u, text[j]))
    && (e < |text| ==> !CommandChar(u, text[e]))
  }

  /** A command to expand begins at i: behind white space or at the start, a maximal token that names
      a valid skill and has no colon. */
  ghost predicate Expands(u: Unicode, valid: set<string>, text: string, i: int) {
    && Boundary(text, i)
    && exists e :: Token(u, text, i, e) && text[i + 1..e] in valid && ':' !in text[i + 1..e] && i + 1 < e
  }

  /** The text from i on, with the plugin inserted behind the dollar sign of every such command, and
      nothing else changed. */
  ghost function Annotated(u: Unicode, valid: set<string>, text: string, i: nat): string
    requires i <= |text|
    decreases |text| - i
  {
    if i == |text| then ""
    else (if Expands(u, valid, text, i) then PREFIX else [text[i]]) + Annotated(u, valid, text, i + 1)
  }

  ghost function Expanded(u: Unicode, valid: set<string>, text: string): string { Annotated(u, valid, text, 0) }

  // ----- expanding twice -----

  /** The longest prefix of command characters. */
  function Word(u: Unicode, s: string): (w: string)
    ensures |w| <= |s| && s[..|w|] == w
    ensures forall c <- w :: CommandChar(u, c)
    ensures |w| < |s| ==> !CommandChar(u, s[|w|])
  {
    if s == "" || !CommandChar(u, s[0]) then "" else [s[0]] + Word(u, s[1..])
  }

  predicate IsCommand(u: Unicode, valid: set<string>, w: string) { w in valid && w != "" && ':' !in w }

  /** The same, character by character, knowing only whether the text before ends at a boundary. */
  function Walk(u: Unicode, valid: set<string>, boundary: bool, s: string): string
    decreases |s|
  {
    if s == "" then ""
    else if boundary && s[0] == '$' && IsCommand(u, valid, Word(u, s[1..])) then PREFIX + Walk(u, valid, false, s[1..])
    else [s[0]] + Walk(u, valid, IsSpace(s[0]), s[1..])
  }

  lemma WordUnique(u: Unicode, text: string, i: int, e: int)
    requires Token(u, text, i, e)
    ensures text[i + 1..e] == Word(u, text[i + 1..])
  {
    hide CommandChar;
    var s, n := text[i + 1..], e - (i + 1);
    forall j | 0 <= j < n ensures CommandChar(u, s[j]) { assert s[j] == text[i + 1 + j]; }
    RunIsWord(u, s, n);
    assert text[i + 1..e] == s[..n];
  }

  lemma {:induction false} RunIsWord(u: Unicode, s: string, n: nat)
    requires n <= |s| && (forall j | 0 <= j < n :: CommandChar(u, s[j])) && (n < |s| ==> !CommandChar(u, s[n]))
    ensures Word(u, s) == s[..n]
  {
    hide CommandChar;
    if n > 0 {
      assert CommandChar(u, s[0]);
      forall j | 0 <= j < n - 1 ensures CommandChar(u, s[1..][j]) { assert s[1..][j] == s[j + 1]; }
      RunIsWord(u, s[1..], n - 1);
      assert [s[0]] + s[1..][..n - 1] == s[..n];
    }
  }

  lemma ExpandsByWord(u: Unicode, valid: set<string>, text: string, i: nat)
    requires i < |text|
    ensures Expands(u, valid, text, i)
            <==> Boundary(text, i) && text[i] == '$' && IsCommand(u, valid, Word(u, text[i + 1..]))
  {
    hide Boundary, CommandChar, IsSpace;
    if e :| Token(u, text, i, e) && text[i + 1..e] in valid && ':' !in text[i + 1..e] && i + 1 < e {
      WordUnique(u, text, i, e);
    }
    if text[i] == '$' && IsCommand(u, valid, Word(u, text[i + 1..])) {
      var w := Word(u, text[i + 1..]);
      var e := i + 1 + |w|;
      assert text[i + 1..e] == w;
      forall j | i < j < e ensures CommandChar(u, text[j]) { assert text[j] == w[j - i - 1]; }
      assert Token(u, text, i, e);
    }
  }

  lemma {:induction false} WalkIsAnnotated(u: Unicode, valid: set<string>, text: string, i: nat)
    requires i <= |text|
    ensures Annotated(u, valid, text, i) == Walk(u, valid, Boundary(text, i), text[i..])
    decreases |text| - i
  {
    hide Expands, Word, IsCommand;
    if i < |text| {
      ExpandsByWord(u, valid, text, i);
      WalkIsAnnotated(u, valid, text, i + 1);
      assert text[i..][1..] == text[i + 1..];
      assert Boundary(text, i + 1) == IsSpace(text[i]);
    }
  }

  /** Behind a dollar sign the walk changes no word. */
  lemma {:induction false} WalkKeepsWord(u: Unicode, valid: set<string>, s: string)
    requires Standard(u)
    ensures Word(u, Walk(u, valid, false, s)) == Word(u, s)
  {
    if s != "" && CommandChar(u, s[0]) {
      CommandChars(u);
      WalkKeepsWord(u, valid, s[1..]);
      assert ([s[0]] + Walk(u, valid, false, s[1..]))[1..] == Walk(u, valid, false, s[1..]);
    }
  }

  lemma {:induction false} WalkCopies(u: Unicode, valid: set<string>, p: string, x: string)
    requires Standard(u) && forall c <- p :: CommandChar(u, c)
    ensures Walk(u, valid, false, p + x) == p + Walk(u, valid, false, x)
  {
    if p == "" {
      assert p + x == x && p + Walk(u, valid, false, x) == Walk(u, valid, false, x);
    } else {
      CommandChars(u);
      assert (p + x)[1..] == p[1..] + x;
      assert p[0] in p;
      WalkCopies(u, valid, p[1..], x);
      Regroup([p[0]], p[1..], Walk(u, valid, false, x));
      assert [p[0]] + p[1..] == p;
    }
  }

  lemma {:induction false} WordCopies(u: Unicode, p: string, x: string)
    requires forall c <- p :: CommandChar(u, c)
    ensures Word(u, p + x) == p + Word(u, x)
  {
    if p == "" {
      assert p + x == x && p + Word(u, x) == Word(u, x);
    } else {
      assert (p + x)[1..] == p[1..] + x;
      assert p[0] in p;
      WordCopies(u, p[1..], x);
      Regroup([p[0]], p[1..], Word(u, x));
      assert [p[0]] + p[1..] == p;
    }
  }

  lemma PluginChars(u: Unicode)
    requires Standard(u)
    ensures forall c <- PLUGIN :: CommandChar(u, c)
    ensures ':' in PLUGIN && PREFIX == ['$'] + PLUGIN
  {
    hide CommandChar, IsSpace;
    CommandChars(u);
  }

  lemma {:induction false} WalkTwice(u: Unicode, valid: set<string>, boundary: bool, s: string)
    requires Standard(u)
    ensures Walk(u, valid, boundary, Walk(u, valid, boundary, s)) == Walk(u, valid, boundary, s)
    decreases |s|
  {
    hide Word, IsSpace, CommandChar;
    if s != "" {
      if boundary && s[0] == '$' && IsCommand(u, valid, Word(u, s[1..])) {
        var x := Walk(u, valid, false, s[1..]);
        WalkTwice(u, valid, false, s[1..]);
        QualifiedStays(u, valid, boundary, x);
      } else {
        var b := IsSpace(s[0]);
        var y := Walk(u, valid, b, s[1..]);
        WalkTwice(u, valid, b, s[1..]);
        assert ([s[0]] + y)[1..] == y;
        if boundary && s[0] == '$' {
          assert !b by { DollarIsNoSpace(); }
          WalkKeepsWord(u, valid, s[1..]);
        }
      }
    }
  }

  lemma DollarIsNoSpace()
    ensures !IsSpace('$')
  {
  }

  /** A qualified command is not expanded again. */
  lemma QualifiedStays(u: Unicode, valid: set<string>, boundary: bool, x: string)
    requires Standard(u)
    ensures Walk(u, valid, boundary, PREFIX + x) == PREFIX + Walk(u, valid, false, x)
  {
    hide Word, IsSpace, CommandChar;
    PluginChars(u);
    WordCopies(u, PLUGIN, x);
    WalkCopies(u, valid, PLUGIN, x);
    DollarIsNoSpace();
    assert PREFIX + x == ['$'] + (PLUGIN + x);
    assert (PREFIX + x)[1..] == PLUGIN + x;
    assert ':' in PLUGIN + Word(u, x);
    Regroup(['$'], PLUGIN, Walk(u, valid, false, x));
  }

  /** Expanding an expanded text changes nothing. */
  lemma ExpandTwice(u: Unicode, valid: set<string>, text: string)
    requires Standard(u)
    ensures Expanded(u, valid, Expanded(u, valid, text)) == Expanded(u, valid, text)
  {
    hide Walk;
    var once := Expanded(u, valid, text);
    WalkIsAnnotated(u, valid, text, 0);
    WalkIsAnnotated(u, valid, once, 0);
    assert text[0..] == text && once[0..] == once;
    WalkTwice(u, valid, true, text);
  }

  // ----- the rewriting loop -----

  lemma {:induction false} NothingToExpand(u: Unicode, valid: set<string>, text: string, i: nat)
    requires i <= |text| && (valid == {} || '$' !in text)
    ensures Annotated(u, valid, text, i) == text[i..]
    decreases |text| - i
  {
    hide Boundary, CommandChar;
    if i < |text| {
      NothingToExpand(u, valid, text, i + 1);
      assert text[i] in text;
      assert !Expands(u, valid, text, i);
      assert text[i..] == [text[i]] + text[i + 1..];
    }
  }

  /** The loop copies a whole token at once: inside it nothing begins. */
  lemma {:induction false} TokenCopies(u: Unicode, valid: set<string>, text: string, i: nat, e: nat)
    requires i <= e <= |text| && Standard(u) && forall j | i <= j < e :: CommandChar(u, text[j])
    ensures Annotated(u, valid, text, i) == text[i..e] + Annotated(u, valid, text, e)
    decreases e - i
  {
    hide Boundary, CommandChar, IsSpace;
    if i == e {
      assert text[i..e] + Annotated(u, valid, text, e) == Annotated(u, valid, text, e);
    } else {
      CommandChars(u);
      TokenCopies(u, valid, text, i + 1, e);
      assert CommandChar(u, text[i]);
      assert !Expands(u, valid, text, i);
      assert text[i..e] == [text[i]] + text[i + 1..e];
      Regroup([text[i]], text[i + 1..e], Annotated(u, valid, text, e));
    }
  }

  function AfterLastColon(s: string): string
    decreases |s|
  {
    if s == "" then "" else if s[|s| - 1] == ':' then "" else AfterLastColon(s[..|s| - 1]) + [s[|s| - 1]]
  }

  lemma {:induction false} NoColonNoCut(s: string)
    requires ':' !in s
    ensures AfterLastColon(s) == s
  {
    if s != "" {
      assert s[|s| - 1] in s;
      NoColonNoCut(s[..|s| - 1]);
      assert s[..|s| - 1] + [s[|s| - 1]] == s;
    }
  }

  lemma OneChar(u: Unicode, valid: set<string>, text: string, i: nat)
    requires i < |text| && !Expands(u, valid, text, i)
    ensures Annotated(u, valid, text, i) == [text[i]] + Annotated(u, valid, text, i + 1)
  {
    hide Expands;
  }

  lemma WholeToken(u: Unicode, valid: set<string>, text: string, i: nat, e: nat)
    requires Standard(u) && Boundary(text, i) && Token(u, text, i, e)
    ensures Annotated(u, valid, text, i) ==
              (if IsCommand(u, valid, text[i + 1..e]) then PREFIX + text[i + 1..e] else text[i..e])
              + Annotated(u, valid, text, e)
  {
    hide Boundary, CommandChar, Expands, Word;
    ExpandsByWord(u, valid, text, i);
    WordUnique(u, text, i, e);
    TokenCopies(u, valid, text, i + 1, e);
    var head := if IsCommand(u, valid, text[i + 1..e]) then PREFIX else [text[i]];
    Regroup(head, text[i + 1..e], Annotated(u, valid, text, e));
    assert text[i..e] == [text[i]] + text[i + 1..e];
  }

  /** The character may stand in a command. */
  predicate InCommand(u: Unicode, c: char) { u.letter(c) || u.digit(c) || c in {'-', '_', ':'} }

  /** A whole token behind white space or at the start is given the plugin's name exactly when it is one of
      the given skills; it is copied otherwise. */
  lemma TokenMeans(u: Unicode, skills: seq<string>, text: string, i: nat, e: nat)
    requires Standard(u) && i < e <= |text| && text[i] == '$' && (i == 0 || IsSpace(text[i - 1]))
    requires (forall j | i < j < e :: InCommand(u, text[j])) && (e < |text| ==> !InCommand(u, text[e]))
    ensures var w, rest := text[i + 1..e], Annotated(u, ValidSkills(skills), text, e);
            Annotated(u, ValidSkills(skills), text, i)
            == (if w in skills && w !in {"", "(none)"} && ':' !in w then "$agent-dashboard:" + w else "$" + w) + rest
  {
    hide IsSpace, Annotated;
    assert Token(u, text, i, e);
    WholeToken(u, ValidSkills(skills), text, i, e);
    assert text[i..e] == "$" + text[i + 1..e];
  }

  /** Every other character is copied. */
  lemma OtherCharsStay(u: Unicode, valid: set<string>, text: string, i: nat)
    requires i < |text| && (text[i] != '$' || (i > 0 && !IsSpace(text[i - 1])))
    ensures Annotated(u, valid, text, i) == [text[i]] + Annotated(u, valid, text, i + 1)
  {
    hide IsSpace;
    OneChar(u, valid, text, i);
  }

  method CollectValid(skills: seq<string>) returns (valid: set<string>)
    ensures valid == ValidSkills(skills)
  {
    valid := {};
    for i := 0 to |skills|
      invariant valid == ValidSkills(skills[..i])
    {
      assert skills[..i + 1] == skills[..i] + [skills[i]];
      if skills[i] == "" || skills[i] == "(none)" { continue; }
      valid := valid + {skills[i]};
    }
    assert skills[..|skills|] == skills;
  }

  /** End of the run of command characters behind i. */
  method TokenEnd(u: Unicode, text: string, i: nat) returns (e: nat)
    requires i < |text| && text[i] == '$'
    ensures Token(u, text, i, e)
  {
    e := i + 1;
    while e < |text| && CommandChar(u, text[e])
      invariant i < e <= |text| && forall j | i < j < e :: CommandChar(u, text[j])
    {
      e := e + 1;
    }
  }

  /** What is written for a token: the qualified command, or the token as it is. */
  method WriteToken(u: Unicode, valid: set<string>, text: string, i: nat, e: nat) returns (part: string)
    requires i < e <= |text|
    ensures part == if IsCommand(u, valid, text[i + 1..e]) then PREFIX + text[i + 1..e] else text[i..e]
  {
    var word := text[i + 1..e];
    if word == "" { return text[i..e]; }
    var tail := AfterLastColon(word);
    if ':' !in word { NoColonNoCut(word); }
    if tail in valid && ':' !in word { return PREFIX + tail; }
    return text[i..e];
  }

  method ExpandCodexShortkeys(u: Unicode, text: string, skills: seq<string>) returns (out: string)
    requires Standard(u)
    ensures out == Expanded(u, ValidSkills(skills), text)
  {
    hide Annotated, Expands, CommandChar, IsSpace, Token;
    var valid := CollectValid(skills);
    assert text[0..] == text;
    if text == "" || skills == [] || '$' !in text || valid == {} {
      NothingToExpand(u, valid, text, 0);
      return text;
    }
    out := "";
    var i := 0;
    assert out + Expanded(u, valid, text) == Expanded(u, valid, text);
    while i < |text|
      invariant i <= |text|
      invariant out + Annotated(u, valid, text, i) == Expanded(u, valid, text)
    {
      ghost var before := out;
      if text[i] != '$' || (i > 0 && !IsSpace(text[i - 1])) {
        assert !Expands(u, valid, text, i) by { ExpandsByWord(u, valid, text, i); }
        OneChar(u, valid, text, i);
        out := out + [text[i]];
        Regroup(before, [text[i]], Annotated(u, valid, text, i + 1));
        i := i + 1;
        continue;
      }
      var e := TokenEnd(u, text, i);
      assert i < e <= |text| by { TokenBounds(u, text, i, e); }
      var part := WriteToken(u, valid, text, i, e);
      WholeToken(u, valid, text, i, e);
      out := out + part;
      Regroup(before, part, Annotated(u, valid, text, e));
      i := e;
    }
    assert Annotated(u, valid, text, |text|) == "" by { NothingLeft(u, valid, text); }
    assert out + "" == out;
  }

  lemma TokenBounds(u: Unicode, text: string, i: int, e: int)
    requires Token(u, text, i, e)
    ensures 0 <= i < e <= |text|
  {
  }

  lemma NothingLeft(u: Unicode, valid: set<string>, text: string)
    ensures Annotated(u, valid, text, |text|) == ""
  {
  }
}
