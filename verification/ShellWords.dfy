// The command line claude is started with (agent-api/conversations.go), read
// back by the shell's own rules.
module ShellWords {
  import opened Options

  // ---------- the shell: POSIX.1-2017 XCU sections 2.2.1, 2.2.2 and 2.3 ----------

  /** What an unquoted character does. Everything the shell might treat
      specially, apart from the two kinds of quoting here, is refused. */
  predicate Plain(c: char) {
    ('a' <= c <= 'z') || ('A' <= c <= 'Z') || ('0' <= c <= '9') || c in "-_./:=@,+"
  }

  predicate Blank(c: char) {
    c == ' ' || c == '\t'
  }

  /** The word so far, with more characters. */
  function Grown(word: Option<string>, t: string): Option<string> {
    if word.Some? then Some(word.value + t) else Some(t)
  }

  function Ended(word: Option<string>, rest: Option<seq<string>>): Option<seq<string>> {
    if word.None? || rest.None? then rest else Some([word.value] + rest.value)
  }

  /** The words of an input, the first of them already begun if word is Some:
      a blank ends a word, a backslash quotes the next character (and joins a
      line to the next), a single quote quotes up to the next one. */
  function Words(s: string, word: Option<string>): Option<seq<string>>
    decreases |s|
  {
    if s == "" then Ended(word, Some([]))
    else if s[0] == '\\' then
      if |s| == 1 || s[1] == '\0' then None
      else if s[1] == '\n' then Words(s[2..], word)
      else Words(s[2..], Grown(word, [s[1]]))
    else if s[0] == '\'' then Inside(s[1..], Grown(word, ""))
    else if Blank(s[0]) then Ended(word, Words(s[1..], None))
    else if Plain(s[0]) then Words(s[1..], Grown(word, [s[0]]))
    else None
  }

  /** Inside single quotes every character stands for itself. */
  function Inside(s: string, word: Option<string>): Option<seq<string>>
    decreases |s|
  {
    if s == "" || s[0] == '\0' then None
    else if s[0] == '\'' then Words(s[1..], word)
    else Inside(s[1..], Grown(word, [s[0]]))
  }

  // ---------- the printer ----------

  predicate ShellSafe(r: char) {
    if 'a' <= r <= 'z' || 'A' <= r <= 'Z' || '0' <= r <= '9' then true else r in "-_./:=@,+"
  }

  /** The argument with every single quote ended, escaped and begun again. */
  function Escaped(arg: string): string {
    if arg == "" then "" else (if arg[0] == '\'' then "'\\''" else [arg[0]]) + Escaped(arg[1..])
  }

  function ShellQuote(arg: string): string {
    if arg != "" && forall i :: 0 <= i < |arg| ==> ShellSafe(arg[i]) then arg
    else "'" + Escaped(arg) + "'"
  }

  function Quotes(args: seq<string>): seq<string> {
    seq(|args|, i requires 0 <= i < |args| => ShellQuote(args[i]))
  }

  /** strings.Join with a blank. */
  function Join(words: seq<string>): string {
    if words == [] then "" else if |words| == 1 then words[0] else words[0] + " " + Join(words[1..])
  }

  function Joined(args: seq<string>): string {
    Join(Quotes(args))
  }

  predicate NulFree(arg: string) {
    forall i :: 0 <= i < |arg| ==> arg[i] != '\0'
  }

  datatype Request = Request(model: string, effort: string, permissionMode: string)

  /** An option and its value, left out when the value is empty. */
  function With(args: seq<string>, option: string, value: string): seq<string> {
    if value == "" then args else args + [option, value]
  }

  function ClaudeArgs(
      bin: string, req: Request, sessionID: string, settings: string, uploads: string, rules: string,
      prompt: string, defaultMode: string): seq<string>
  {
    var first := With([bin], "--session-id", sessionID) + ["--settings", settings];
    var second := With(first, "--add-dir", uploads)
      + (if rules != "" then ["--append-system-prompt-file", rules] else ["--append-system-prompt", prompt]);
    var mode := if req.permissionMode == "" then defaultMode else req.permissionMode;
    With(With(With(second, "--model", req.model), "--effort", req.effort), "--permission-mode", mode)
  }

  /** An option in its place, with its value directly after it. */
  predicate Gives(args: seq<string>, option: string, value: string) {
    exists i :: 0 <= i < |args| - 1 && i % 2 == 1 && args[i] == option && args[i + 1] == value
  }

  function Pairs(value: string): int {
    if value == "" then 0 else 2
  }

  /** The program, then each setting there is directly after its own option, and
      nothing else: the list is no longer than that takes. */
  predicate ArgsRight(
      args: seq<string>, bin: string, req: Request, sessionID: string, settings: string, uploads: string,
      rules: string, prompt: string, mode: string)
  {
    && |args| == 5 + Pairs(sessionID) + Pairs(uploads) + Pairs(req.model) + Pairs(req.effort) + Pairs(mode)
    && args[0] == bin
    && (sessionID != "" ==> Gives(args, "--session-id", sessionID))
    && Gives(args, "--settings", settings)
    && (uploads != "" ==> Gives(args, "--add-dir", uploads))
    && (rules != "" ==> Gives(args, "--append-system-prompt-file", rules))
    && (rules == "" ==> Gives(args, "--append-system-prompt", prompt))
    && (req.model != "" ==> Gives(args, "--model", req.model))
    && (req.effort != "" ==> Gives(args, "--effort", req.effort))
    && (mode != "" ==> Gives(args, "--permission-mode", mode))
  }

  lemma Given(args: seq<string>, option: string, value: string)
    requires |args| % 2 == 1
    ensures var n := args + [option, value];
      && Gives(n, option, value) && n[0] == args[0]
      && forall o, v {:trigger Gives(args, o, v)} :: Gives(args, o, v) ==> Gives(n, o, v)
  {
    var n := args + [option, value];
    assert n[|args|] == option && n[|args| + 1] == value;
    forall o, v | Gives(args, o, v) ensures Gives(n, o, v) {
      var i :| 0 <= i < |args| - 1 && i % 2 == 1 && args[i] == o && args[i + 1] == v;
      assert n[i] == o && n[i + 1] == v;
    }
  }

  lemma Growing(args: seq<string>, option: string, value: string)
    requires |args| % 2 == 1
    ensures var n := With(args, option, value);
      && |n| == |args| + Pairs(value) && |n| % 2 == 1 && n[0] == args[0]
      && (value != "" ==> Gives(n, option, value))
      && forall o, v {:trigger Gives(args, o, v)} :: Gives(args, o, v) ==> Gives(n, o, v)
  {
    Given(args, option, value);
  }

  /** The argument list is what it is meant to be; no mode asked for is the default one. */
  lemma ClaudeArgsRight(
      bin: string, req: Request, sessionID: string, settings: string, uploads: string, rules: string,
      prompt: string, defaultMode: string)
    ensures ArgsRight(
      ClaudeArgs(bin, req, sessionID, settings, uploads, rules, prompt, defaultMode), bin, req, sessionID, settings,
      uploads, rules, prompt, if req.permissionMode == "" then defaultMode else req.permissionMode)
  {
    hide Gives, With, Pairs;
    var zero := With([bin], "--session-id", sessionID);
    Growing([bin], "--session-id", sessionID);
    var one := zero + ["--settings", settings];
    Given(zero, "--settings", settings);
    var two := With(one, "--add-dir", uploads);
    Growing(one, "--add-dir", uploads);
    var three := two +
      if rules != "" then ["--append-system-prompt-file", rules] else ["--append-system-prompt", prompt];
    Given(two, "--append-system-prompt-file", rules);
    Given(two, "--append-system-prompt", prompt);
    var four := With(three, "--model", req.model);
    Growing(three, "--model", req.model);
    var five := With(four, "--effort", req.effort);
    Growing(four, "--effort", req.effort);
    var mode := if req.permissionMode == "" then defaultMode else req.permissionMode;
    Growing(five, "--permission-mode", mode);
  }

  // ---------- what the shell reads back ----------

  lemma {:induction false} PlainRead(arg: string, rest: string, word: Option<string>)
    requires forall i :: 0 <= i < |arg| ==> ShellSafe(arg[i])
    requires arg != "" || word.Some?
    ensures Words(arg + rest, word) == Words(rest, Grown(word, arg))
  {
    if arg == "" {
      assert arg + rest == rest && word.value + arg == word.value;
    } else {
      hide Words, Grown, ShellSafe;
      var c, t := [arg[0]], arg[1..];
      assert ShellSafe(arg[0]);
      assert arg + rest == c + (t + rest) && arg == c + t;
      GrownTwice(word, c, t);
      PlainRead(t, rest, Grown(word, c));
    }
  }

  lemma GrownTwice(word: Option<string>, a: string, b: string)
    ensures Grown(Grown(word, a), b) == Grown(word, a + b)
  {
    if word.Some? { assert word.value + a + b == word.value + (a + b); }
  }

  lemma QuoteEscaped(t: string, word: string)
    ensures Inside("'\\''" + t, Some(word)) == Inside(t, Some(word + "'"))
  {
    var s := "'\\''" + t;
    assert s[1..] == "\\''" + t;
    assert ("\\''" + t)[2..] == "'" + t;
    assert ("'" + t)[1..] == t;
    assert word + "'" + "" == word + "'";
    assert Inside(s, Some(word)) == Words("\\''" + t, Some(word));
    assert Words("\\''" + t, Some(word)) == Words("'" + t, Some(word + "'"));
  }

  lemma {:induction false} EscapedRead(arg: string, rest: string, word: string)
    requires NulFree(arg)
    ensures Inside(Escaped(arg) + "'" + rest, Some(word)) == Words(rest, Some(word + arg))
  {
    if arg == "" {
      assert ("" + "'" + rest)[1..] == rest && word + arg == word;
    } else {
      var next := Escaped(arg[1..]) + "'" + rest;
      EscapedRead(arg[1..], rest, word + [arg[0]]);
      assert word + [arg[0]] + arg[1..] == word + arg;
      if arg[0] == '\'' {
        assert Escaped(arg) + "'" + rest == "'\\''" + next;
        QuoteEscaped(next, word);
      } else {
        assert Escaped(arg) + "'" + rest == [arg[0]] + next;
        assert ([arg[0]] + next)[1..] == next;
      }
    }
  }

  /** One quoted argument is read back as itself, glued to the word before it. */
  lemma QuoteRead(arg: string, rest: string)
    requires NulFree(arg)
    ensures Words(ShellQuote(arg) + rest, None) == Words(rest, Some(arg))
  {
    hide Escaped, ShellSafe, Plain;
    if arg != "" && forall i :: 0 <= i < |arg| ==> ShellSafe(arg[i]) {
      PlainRead(arg, rest, None);
    } else {
      EscapedRead(arg, rest, "");
      assert (ShellQuote(arg) + rest)[1..] == Escaped(arg) + "'" + rest;
      assert "" + arg == arg;
    }
  }

  /** The shell reads a line of quoted arguments back as exactly those arguments,
      whatever their characters (NUL cannot occur in one), empty ones included. */
  lemma {:induction false} SplitsBack(args: seq<string>)
    requires forall i :: 0 <= i < |args| ==> NulFree(args[i])
    ensures Words(Joined(args), None) == Some(args)
  {
    if |args| == 1 {
      QuoteRead(args[0], "");
      assert ShellQuote(args[0]) + "" == ShellQuote(args[0]);
      assert args == [args[0]] + [];
    } else if args != [] {
      var rest := args[1..];
      SplitsBack(rest);
      JoinedFirst(args);
      QuoteRead(args[0], " " + Joined(rest));
      assert (" " + Joined(rest))[1..] == Joined(rest);
      assert args == [args[0]] + rest;
    }
  }

  lemma JoinedFirst(args: seq<string>)
    requires |args| > 1
    ensures Joined(args) == ShellQuote(args[0]) + (" " + Joined(args[1..]))
  {
    assert Quotes(args)[1..] == Quotes(args[1..]);
  }

  /** claudeCommandLine: the line the shell is given splits back into exactly the
      arguments meant. */
  method ClaudeCommandLine(
      bin: string, req: Request, sessionID: string, settings: string, uploads: string, rules: string,
      prompt: string, defaultMode: string)
    returns (line: string, args: seq<string>)
    ensures args == ClaudeArgs(bin, req, sessionID, settings, uploads, rules, prompt, defaultMode)
    ensures ArgsRight(
      args, bin, req, sessionID, settings, uploads, rules, prompt,
      if req.permissionMode == "" then defaultMode else req.permissionMode)
    ensures line == Joined(args)
    ensures (forall i :: 0 <= i < |args| ==> NulFree(args[i])) ==> Words(line, None) == Some(args)
  {
    ClaudeArgsRight(bin, req, sessionID, settings, uploads, rules, prompt, defaultMode);
    hide Words, ShellQuote, Quotes, Join, ArgsRight;
    args := [bin];
    if sessionID != "" { args := args + ["--session-id", sessionID]; }
    args := args + ["--settings", settings];
    assert args == With([bin], "--session-id", sessionID) + ["--settings", settings];
    ghost var first := args;
    if uploads != "" { args := args + ["--add-dir", uploads]; }
    var mode := if req.permissionMode == "" then defaultMode else req.permissionMode;
    assert args == With(first, "--add-dir", uploads);
    args := args + if rules != "" then ["--append-system-prompt-file", rules] else ["--append-system-prompt", prompt];
    ghost var second := args;
    if req.model != "" { args := args + ["--model", req.model]; }
    assert args == With(second, "--model", req.model);
    ghost var third := args;
    if req.effort != "" { args := args + ["--effort", req.effort]; }
    assert args == With(third, "--effort", req.effort);
    ghost var fourth := args;
    if mode != "" { args := args + ["--permission-mode", mode]; }
    assert args == With(fourth, "--permission-mode", mode);
    var quoted := QuoteEach(args);
    line := Join(quoted);
    if forall i :: 0 <= i < |args| ==> NulFree(args[i]) { SplitsBack(args); }
  }

  method QuoteEach(args: seq<string>) returns (quoted: seq<string>)
    ensures quoted == Quotes(args)
  {
    quoted := [];
    for i := 0 to |args|
      invariant quoted == Quotes(args[..i])
    {
      quoted := quoted + [ShellQuote(args[i])];
    }
    assert args[..|args|] == args;
  }
}
