/** The shell commands that start an agent, read back by the quoting rules of the POSIX.1-2017
    Shell Command Language: escape character (section 2.2.1), single quotes (section 2.2.2) and
    token recognition (section 2.3). */
module ShellSpawn {
  import opened Seqs

  // ----- the shell -----

  datatype Mode = Between | InWord | InQuotes | Escaped

  /** The words read so far and the one being read. Stuck on anything outside the three sections:
      operators, expansions, comments, double quotes, line continuations. */
  datatype Reader = Reader(mode: Mode, words: seq<string>, cur: string) | Stuck

  predicate Blank(c: char) { c == ' ' || c == '\t' }

  /** Characters that stand for themselves wherever they appear. */
  predicate Plain(c: char) {
    'a' <= c <= 'z' || 'A' <= c <= 'Z' || '0' <= c <= '9' || c in "_-./:=+,%@"
  }

  predicate PlainWord(s: string) { s != "" && forall c <- s :: Plain(c) }

  function Read(r: Reader, c: char): Reader {
    if r.Stuck? then Stuck
    else
      match r.mode
      case Between =>
        if Blank(c) then r
        else if c == '\'' then r.(mode := InQuotes)
        else if c == '\\' then r.(mode := Escaped)
        else if Plain(c) then Reader(InWord, r.words, [c])
        else Stuck
      case InWord =>
        if Blank(c) then Reader(Between, r.words + [r.cur], "")
        else if c == '\'' then r.(mode := InQuotes)
        else if c == '\\' then r.(mode := Escaped)
        else if Plain(c) then r.(cur := r.cur + [c])
        else Stuck
      case InQuotes => if c == '\'' then r.(mode := InWord) else r.(cur := r.cur + [c])
      case Escaped => if c == '\n' then Stuck else Reader(InWord, r.words, r.cur + [c])
  }

  function Run(r: Reader, s: string): Reader
    decreases |s|
  {
    if s == "" then r else Run(Read(r, s[0]), s[1..])
  }

  const START := Reader(Between, [], "")

  /** The text is a complete list of exactly these words. */
  predicate LexesTo(s: string, words: seq<string>) {
    var r := Run(START, s);
    r == Reader(Between, words, "") || (r.Reader? && r.mode.InWord? && r.words + [r.cur] == words)
  }

  lemma {:induction false} RunAppend(r: Reader, s: string, t: string)
    ensures Run(r, s + t) == Run(Run(r, s), t)
    decreases |s|
  {
    hide Read;
    if s == "" {
      assert s + t == t;
    } else {
      assert (s + t)[1..] == s[1..] + t;
      RunAppend(Read(r, s[0]), s[1..], t);
    }
  }

  /** What a command is read as does not depend on the words before it. */
  lemma {:induction false} RunAfterWords(pre: seq<string>, r: Reader, s: string)
    requires r.Reader?
    ensures Run(r.(words := pre + r.words), s)
         == (var q := Run(r, s); if q.Stuck? then Stuck else q.(words := pre + q.words))
    decreases |s|
  {
    if s != "" {
      var next := Read(r, s[0]);
      Regroup(pre, r.words, [r.cur]);
      if next.Stuck? {
        StuckStays(s[1..]);
      } else {
        RunAfterWords(pre, next, s[1..]);
      }
    }
  }

  lemma {:induction false} StuckStays(s: string)
    ensures Run(Stuck, s) == Stuck
  {
    if s != "" { StuckStays(s[1..]); }
  }

  lemma {:induction false} PlainIsLiteral(words: seq<string>, cur: string, s: string)
    requires forall c <- s :: Plain(c)
    ensures Run(Reader(InWord, words, cur), s) == Reader(InWord, words, cur + s)
    decreases |s|
  {
    if s == "" {
      assert cur + s == cur;
    } else {
      assert s[0] in s;
      Regroup(cur, [s[0]], s[1..]);
      assert [s[0]] + s[1..] == s;
      PlainIsLiteral(words, cur + [s[0]], s[1..]);
    }
  }

  lemma PlainWordRead(words: seq<string>, s: string)
    requires PlainWord(s)
    ensures Run(Reader(Between, words, ""), s) == Reader(InWord, words, s)
  {
    hide Plain;
    assert s[0] in s && forall c <- s[1..] :: c in s;
    FirstRead(words, s);
    PlainIsLiteral(words, [s[0]], s[1..]);
    assert [s[0]] + s[1..] == s;
  }

  lemma FirstRead(words: seq<string>, s: string)
    requires s != "" && Plain(s[0])
    ensures Run(Reader(Between, words, ""), s) == Run(Reader(InWord, words, [s[0]]), s[1..])
  {
  }

  // ----- quoting -----

  function EscapeQuotes(s: string): string {
    if s == "" then "" else (if s[0] == '\'' then "'\\''" else [s[0]]) + EscapeQuotes(s[1..])
  }

  function ShellQuote(s: string): string { "'" + EscapeQuotes(s) + "'" }

  lemma {:induction false} EscapedIsLiteral(words: seq<string>, cur: string, s: string)
    ensures Run(Reader(InQuotes, words, cur), EscapeQuotes(s)) == Reader(InQuotes, words, cur + s)
    decreases |s|
  {
    if s == "" {
      assert cur + s == cur;
    } else {
      var head := if s[0] == '\'' then "'\\''" else [s[0]];
      RunAppend(Reader(InQuotes, words, cur), head, EscapeQuotes(s[1..]));
      HeadIsLiteral(words, cur, s[0]);
      EscapedIsLiteral(words, cur + [s[0]], s[1..]);
      Regroup(cur, [s[0]], s[1..]);
      assert [s[0]] + s[1..] == s;
    }
  }

  lemma HeadIsLiteral(words: seq<string>, cur: string, c: char)
    ensures Run(Reader(InQuotes, words, cur), if c == '\'' then "'\\''" else [c]) == Reader(InQuotes, words, cur + [c])
  {
    if c == '\'' {
      var r := Reader(InQuotes, words, cur);
      assert "'\\''"[1..] == "\\''" && "\\''"[1..] == "''" && "''"[1..] == "'" && "'"[1..] == "";
      assert Run(r, "'\\''") == Run(Reader(InWord, words, cur), "\\''");
      assert Run(Reader(InWord, words, cur), "\\''") == Run(Reader(Escaped, words, cur), "''");
      assert Run(Reader(Escaped, words, cur), "''") == Run(Reader(InWord, words, cur + ['\'']), "'");
      assert Run(Reader(InWord, words, cur + ['\'']), "'") == Reader(InQuotes, words, cur + ['\'']);
    } else {
      assert Run(Reader(InQuotes, words, cur), [c]) == Run(Reader(InQuotes, words, cur + [c]), [c][1..]);
    }
  }

  /** Any text at all comes back from the shell as one unchanged word. */
  lemma QuotedIsOneWord(words: seq<string>, s: string)
    ensures Run(Reader(Between, words, ""), ShellQuote(s)) == Reader(InWord, words, s)
  {
    hide EscapeQuotes;
    var r := Reader(Between, words, "");
    RunAppend(r, "'" + EscapeQuotes(s), "'");
    RunAppend(r, "'", EscapeQuotes(s));
    OneQuote(words, "");
    EscapedIsLiteral(words, "", s);
    assert "" + s == s;
    OneQuote(words, s);
  }

  lemma OneQuote(words: seq<string>, cur: string)
    ensures Run(Reader(Between, words, ""), "'") == Reader(InQuotes, words, "")
    ensures Run(Reader(InQuotes, words, cur), "'") == Reader(InWord, words, cur)
  {
    assert "'"[1..] == "";
  }

  // ----- building a command -----

  lemma BlankEnds(s: string, words: seq<string>)
    requires LexesTo(s, words)
    ensures Run(START, s + " ") == Reader(Between, words, "")
  {
    hide Run;
    RunAppend(START, s, " ");
    OneBlank(Run(START, s));
  }

  lemma OneBlank(r: Reader)
    requires r.Reader? && (r == Reader(Between, r.words, "") || r.mode.InWord?)
    ensures Run(r, " ") == Reader(Between, if r.mode.InWord? then r.words + [r.cur] else r.words, "")
  {
    assert " "[1..] == "";
  }

  /** One more quoted argument is one more word. */
  lemma AddQuoted(s: string, words: seq<string>, arg: string)
    requires LexesTo(s, words)
    ensures LexesTo(s + " " + ShellQuote(arg), words + [arg])
  {
    hide Run, ShellQuote;
    BlankEnds(s, words);
    RunAppend(START, s + " ", ShellQuote(arg));
    QuotedIsOneWord(words, arg);
  }

  lemma AddPlain(s: string, words: seq<string>, arg: string)
    requires LexesTo(s, words) && PlainWord(arg)
    ensures LexesTo(s + " " + arg, words + [arg])
  {
    hide Run, PlainWord;
    BlankEnds(s, words);
    RunAppend(START, s + " ", arg);
    PlainWordRead(words, arg);
  }

  /** A plain word in front. */
  lemma PutPlain(s: string, words: seq<string>, arg: string)
    requires LexesTo(s, words) && PlainWord(arg)
    ensures LexesTo(arg + " " + s, [arg] + words)
  {
    hide Run, PlainWord;
    assert LexesTo(arg, [arg]) by { PlainWordRead([], arg); }
    BlankEnds(arg, [arg]);
    RunAppend(START, arg + " ", s);
    RunAfterWords([arg], START, s);
    assert [arg] + START.words == [arg];
    var q := Run(START, s);
    Regroup([arg], q.words, [q.cur]);
  }

  // ----- the commands -----

  datatype Opts = Opts(effort: string, defaultEffort: string, model: string, resume: string, approval: string,
      sandbox: string)

  const EFFORT_OPTED_SKILLS := {"feature", "fix", "refactor"}
  const CLAUDE_EFFORT_LEVELS := {"minimal", "low", "medium", "high", "max"}
  const CODEX_EFFORT_LEVELS := {"minimal", "low", "medium", "high"}

  function Effort(skill: string, o: Opts): string {
    if o.effort == "" && skill in EFFORT_OPTED_SKILLS then o.defaultEffort else o.effort
  }

  function MapEffort(level: string): string { if level == "max" then "high" else level }

  /** Skill token and message, with a space between them when both are there. */
  function Prompt(sigil: string, skill: string, message: string): string {
    if skill == "" then message
    else if message == "" then sigil + skill
    else sigil + skill + " " + message
  }

  const CLAUDE_SIGIL := "/"
  const CODEX_SIGIL := "$agent-dashboard:"

  function Optional(flag: string, value: string): seq<string> { if value == "" then [] else [flag, value] }

  function PromptWords(prompt: string): seq<string> { if prompt == "" then [] else [prompt] }

  /** The words the Claude command is meant to be. */
  function ClaudeWords(command: seq<string>, skill: string, message: string, o: Opts): seq<string> {
    if o.resume != "" then command + ["--resume", o.resume]
    else
      var e := Effort(skill, o);
      (if e == "" then command else ["CLAUDE_CODE_EFFORT_LEVEL=" + e] + command + ["--effort"] + [e])
      + Optional("--model", o.model) + PromptWords(Prompt(CLAUDE_SIGIL, skill, message))
  }

  function CodexWords(command: seq<string>, skill: string, message: string, o: Opts): seq<string> {
    if o.resume != "" then command + ["resume", o.resume]
    else
      var e := Effort(skill, o);
      command + (if e == "" then [] else ["-c", "model_reasoning_effort=" + MapEffort(e)])
      + Optional("--model", o.model) + Optional("-a", o.approval) + Optional("-s", o.sandbox)
      + PromptWords(Prompt(CODEX_SIGIL, skill, message))
  }

  // ----- the words read back -----

  /** What a program makes of its arguments: the values of its flags, and what is left. */
  datatype Args = Args(flags: map<string, string>, rest: seq<string>)

  function ReadArgs(ws: seq<string>, flags: set<string>): Args {
    if ws == [] then Args(map[], [])
    else if ws[0] in flags && |ws| >= 2 then
      var a := ReadArgs(ws[2..], flags);
      a.(flags := a.flags[ws[0] := ws[1]])
    else
      var a := ReadArgs(ws[1..], flags);
      a.(rest := [ws[0]] + a.rest)
  }

  /** The flag has this value, or is not given when there is none. */
  predicate Given(a: Args, flag: string, value: string) {
    if value == "" then flag !in a.flags else flag in a.flags && a.flags[flag] == value
  }

  lemma OptionalRead(flag: string, value: string, ws: seq<string>, flags: set<string>)
    requires flag in flags && flag !in ReadArgs(ws, flags).flags
    ensures var a, b := ReadArgs(Optional(flag, value) + ws, flags), ReadArgs(ws, flags);
            && Given(a, flag, value) && a.rest == b.rest
            && forall f | f != flag :: (f in a.flags <==> f in b.flags) && (f in a.flags ==> a.flags[f] == b.flags[f])
  {
    var all := Optional(flag, value) + ws;
    if value == "" {
      assert all == ws;
    } else {
      assert all[0] == flag && all[1] == value && all[2..] == ws;
    }
  }

  lemma PromptRead(prompt: string, flags: set<string>)
    ensures ReadArgs(PromptWords(prompt), flags) == Args(map[], PromptWords(prompt))
  {
    if prompt != "" {
      assert [prompt][1..] == [];
      assert [prompt] + [] == [prompt];
    }
  }

  /** The level asked for, or else the default, for the three skills that take one. */
  function Level(skill: string, o: Opts): string {
    if o.effort != "" then o.effort else if skill in {"feature", "fix", "refactor"} then o.defaultEffort else ""
  }

  function PromptText(sigil: string, skill: string, message: string): string {
    (if skill != "" then sigil + skill else "") + (if skill != "" && message != "" then " " else "") + message
  }

  lemma PromptIs(sigil: string, skill: string, message: string)
    ensures Prompt(sigil, skill, message) == PromptText(sigil, skill, message)
  {
  }

  /** Claude is told the level in its environment and by a flag, the model by a flag, and the prompt as the
      one argument left; and to resume, a session and nothing else. */
  lemma ClaudeIsTold(command: seq<string>, skill: string, message: string, o: Opts)
    ensures o.resume != "" ==> ClaudeWords(command, skill, message, o) == command + ["--resume", o.resume]
    ensures o.resume == "" ==>
              var e, prompt := Level(skill, o), PromptText("/", skill, message);
              exists args :: var a := ReadArgs(args, {"--effort", "--model"});
                && ClaudeWords(command, skill, message, o)
                   == ((if e != "" then ["CLAUDE_CODE_EFFORT_LEVEL=" + e] else []) + command) + args
                && Given(a, "--effort", e) && Given(a, "--model", o.model)
                && a.rest == if prompt != "" then [prompt] else []
  {
    hide Prompt, PromptText, ReadArgs;
    if o.resume == "" {
      var e, prompt := Effort(skill, o), Prompt(CLAUDE_SIGIL, skill, message);
      PromptIs(CLAUDE_SIGIL, skill, message);
      var flags := {"--effort", "--model"};
      var rest := PromptWords(prompt);
      PromptRead(prompt, flags);
      OptionalRead("--model", o.model, rest, flags);
      OptionalRead("--effort", e, Optional("--model", o.model) + rest, flags);
      var args := Optional("--effort", e) + (Optional("--model", o.model) + rest);
      assert ClaudeWords(command, skill, message, o)
          == ((if e != "" then ["CLAUDE_CODE_EFFORT_LEVEL=" + e] else []) + command) + args;
    }
  }

  /** Codex is told the level by a setting, with "max" lowered to "high", and model, approval and sandbox by
      flags; the prompt is the one argument left. */
  lemma CodexIsTold(command: seq<string>, skill: string, message: string, o: Opts)
    ensures o.resume != "" ==> CodexWords(command, skill, message, o) == command + ["resume", o.resume]
    ensures o.resume == "" ==>
              var e, prompt := Level(skill, o), PromptText("$agent-dashboard:", skill, message);
              exists args :: var a := ReadArgs(args, {"-c", "--model", "-a", "-s"});
                && CodexWords(command, skill, message, o) == command + args
                && Given(a, "-c", if e == "" then "" else "model_reasoning_effort=" + if e == "max" then "high" else e)
                && Given(a, "--model", o.model) && Given(a, "-a", o.approval) && Given(a, "-s", o.sandbox)
                && a.rest == if prompt != "" then [prompt] else []
  {
    hide Prompt, PromptText, ReadArgs, Given, CodexWords, MapEffort;
    if o.resume != "" {
      ResumedCodex(command, skill, message, o);
    } else {
      var e, prompt := Effort(skill, o), Prompt(CODEX_SIGIL, skill, message);
      PromptIs(CODEX_SIGIL, skill, message);
      Clamped(e);
      CodexSplit(command, skill, message, o);
      CodexFlags(CodexSetting(e), o, prompt);
    }
  }

  lemma ResumedCodex(command: seq<string>, skill: string, message: string, o: Opts)
    requires o.resume != ""
    ensures CodexWords(command, skill, message, o) == command + ["resume", o.resume]
  {
  }

  lemma Clamped(e: string)
    ensures MapEffort(e) == if e == "max" then "high" else e
  {
  }

  function CodexSetting(e: string): string { if e == "" then "" else "model_reasoning_effort=" + MapEffort(e) }

  function CodexArgs(setting: string, o: Opts, prompt: string): seq<string> {
    Optional("-c", setting)
    + (Optional("--model", o.model) + (Optional("-a", o.approval) + (Optional("-s", o.sandbox) + PromptWords(prompt))))
  }

  lemma CodexSplit(command: seq<string>, skill: string, message: string, o: Opts)
    requires o.resume == ""
    ensures CodexWords(command, skill, message, o)
         == command + CodexArgs(CodexSetting(Effort(skill, o)), o, Prompt(CODEX_SIGIL, skill, message))
  {
    hide Optional, Prompt, Effort, PromptWords, MapEffort;
    var e, prompt := Effort(skill, o), Prompt(CODEX_SIGIL, skill, message);
    SettingWords(e);
    var c, m, a, s, p := Optional("-c", CodexSetting(e)), Optional("--model", o.model), Optional("-a", o.approval),
                         Optional("-s", o.sandbox), PromptWords(prompt);
    assert ((((command + c) + m) + a) + s) + p == command + (c + (m + (a + (s + p))));
  }

  lemma SettingWords(e: string)
    ensures Optional("-c", CodexSetting(e)) == if e == "" then [] else ["-c", "model_reasoning_effort=" + MapEffort(e)]
  {
  }

  lemma CodexFlags(setting: string, o: Opts, prompt: string)
    ensures var a := ReadArgs(CodexArgs(setting, o, prompt), {"-c", "--model", "-a", "-s"});
            && Given(a, "-c", setting) && Given(a, "--model", o.model)
            && Given(a, "-a", o.approval) && Given(a, "-s", o.sandbox)
            && a.rest == PromptWords(prompt)
  {
    hide ReadArgs, Optional, PromptWords;
    var flags := {"-c", "--model", "-a", "-s"};
    PromptRead(prompt, flags);
    var p0 := PromptWords(prompt);
    OptionalRead("-s", o.sandbox, p0, flags);
    var p1 := Optional("-s", o.sandbox) + p0;
    OptionalRead("-a", o.approval, p1, flags);
    var p2 := Optional("-a", o.approval) + p1;
    OptionalRead("--model", o.model, p2, flags);
    OptionalRead("-c", setting, Optional("--model", o.model) + p2, flags);
  }

  /** The effort comes from the levels the dashboard offers, or is not set. */
  predicate KnownEffort(e: string) { e == "" || e in CLAUDE_EFFORT_LEVELS || e in CODEX_EFFORT_LEVELS }

  lemma LevelsArePlain(e: string)
    requires KnownEffort(e) && e != ""
    ensures PlainWord(e) && PlainWord(MapEffort(e))
    ensures PlainWord("CLAUDE_CODE_EFFORT_LEVEL=" + e)
    ensures PlainWord("model_reasoning_effort=" + MapEffort(e))
  {
    hide Plain;
    PlainSamples();
    PlainSetting();
    PlainLevels();
    assert PlainWord(e) && PlainWord(MapEffort(e));
  }

  lemma PlainSamples()
    ensures PlainWord("CLAUDE_CODE_EFFORT_LEVEL=")
  {
  }

  lemma PlainSetting()
    ensures PlainWord("model_reasoning_effort=")
  {
  }

  lemma PlainLevels()
    ensures PlainWord("minimal") && PlainWord("low") && PlainWord("medium") && PlainWord("high") && PlainWord("max")
  {
  }

  method BuildPrompt(sigil: string, skill: string, message: string) returns (prompt: string)
    ensures prompt == Prompt(sigil, skill, message)
  {
    var parts: seq<string> := [];
    if skill != "" { parts := parts + [sigil + skill]; }
    if message != "" { parts := parts + [message]; }
    prompt := "";
    for i := 0 to |parts|
      invariant i == 0 ==> prompt == ""
      invariant i == 1 ==> prompt == parts[0]
      invariant i == 2 ==> prompt == parts[0] + " " + parts[1]
    {
      prompt := if i == 0 then parts[i] else prompt + " " + parts[i];
    }
  }

  /** " flag 'value'" for a value that is set. */
  method AddOption(cmd0: string, flag: string, value: string, ghost words: seq<string>) returns (cmd: string)
    requires LexesTo(cmd0, words) && PlainWord(flag)
    ensures LexesTo(cmd, words + Optional(flag, value))
  {
    hide LexesTo, PlainWord, ShellQuote;
    cmd := cmd0;
    if value == "" { assert words + [] == words; return; }
    AddPlain(cmd, words, flag);
    cmd := cmd + " " + flag;
    AddQuoted(cmd, words + [flag], value);
    cmd := cmd + " " + ShellQuote(value);
    assert words + [flag] + [value] == words + [flag, value];
  }

  method AddPrompt(cmd0: string, prompt: string, ghost words: seq<string>) returns (cmd: string)
    requires LexesTo(cmd0, words)
    ensures LexesTo(cmd, words + PromptWords(prompt))
  {
    hide LexesTo, ShellQuote;
    cmd := cmd0;
    if prompt == "" { assert words + [] == words; return; }
    AddQuoted(cmd, words, prompt);
    cmd := cmd + " " + ShellQuote(prompt);
  }

  /** The Claude command is read by the shell as exactly the intended words, whatever the prompt, the
      model and the session id contain. */
  method ClaudeSpawnCommand(command: string, skill: string, message: string, o: Opts, ghost words: seq<string>)
      returns (cmd: string)
    requires LexesTo(command, words) && KnownEffort(o.effort) && KnownEffort(o.defaultEffort)
    ensures LexesTo(cmd, ClaudeWords(words, skill, message, o))
  {
    hide LexesTo, PlainWord, KnownEffort, ShellQuote;
    FlagsArePlain();
    cmd := command;
    if o.resume != "" {
      cmd := AddOption(cmd, "--resume", o.resume, words);
      return;
    }
    var effort := o.effort;
    if effort == "" && skill in EFFORT_OPTED_SKILLS { effort := o.defaultEffort; }
    ghost var ws := words;
    if effort != "" {
      LevelsArePlain(effort);
      PutPlain(cmd, ws, "CLAUDE_CODE_EFFORT_LEVEL=" + effort);
      cmd, ws := "CLAUDE_CODE_EFFORT_LEVEL=" + effort + " " + cmd, ["CLAUDE_CODE_EFFORT_LEVEL=" + effort] + ws;
      AddPlain(cmd, ws, "--effort");
      cmd, ws := cmd + " " + "--effort", ws + ["--effort"];
      AddPlain(cmd, ws, effort);
      cmd, ws := cmd + " " + effort, ws + [effort];
    }
    cmd := AddOption(cmd, "--model", o.model, ws);
    var prompt := BuildPrompt(CLAUDE_SIGIL, skill, message);
    cmd := AddPrompt(cmd, prompt, ws + Optional("--model", o.model));
  }

  lemma FlagsArePlain()
    ensures forall f <- {"--resume", "resume", "--effort", "--model", "-a", "-s", "-c"} :: PlainWord(f)
  {
  }

  method CodexSpawnCommand(command: string, skill: string, message: string, o: Opts, ghost words: seq<string>)
      returns (cmd: string)
    requires LexesTo(command, words) && KnownEffort(o.effort) && KnownEffort(o.defaultEffort)
    ensures LexesTo(cmd, CodexWords(words, skill, message, o))
  {
    hide LexesTo, PlainWord, KnownEffort, ShellQuote;
    FlagsArePlain();
    cmd := command;
    if o.resume != "" {
      cmd := AddOption(cmd, "resume", o.resume, words);
      return;
    }
    var effort := o.effort;
    if effort == "" && skill in EFFORT_OPTED_SKILLS { effort := o.defaultEffort; }
    ghost var ws := words;
    if effort != "" {
      LevelsArePlain(effort);
      var setting := "model_reasoning_effort=" + MapEffort(effort);
      AddPlain(cmd, ws, "-c");
      cmd, ws := cmd + " " + "-c", ws + ["-c"];
      AddPlain(cmd, ws, setting);
      cmd, ws := cmd + " " + setting, ws + [setting];
      assert words + ["-c"] + [setting] == words + ["-c", setting];
    } else {
      assert words + [] == words;
    }
    cmd := AddOption(cmd, "--model", o.model, ws);
    cmd := AddOption(cmd, "-a", o.approval, ws + Optional("--model", o.model));
    cmd := AddOption(cmd, "-s", o.sandbox, ws + Optional("--model", o.model) + Optional("-a", o.approval));
    var prompt := BuildPrompt(CODEX_SIGIL, skill, message);
    cmd := AddPrompt(cmd, prompt,
                     ws + Optional("--model", o.model) + Optional("-a", o.approval) + Optional("-s", o.sandbox));
  }
}
