/**
 The shell quoter of the notebook launcher, and the reader it has to satisfy: token
 recognition, quoting and quote removal of the Shell Command Language in POSIX.1-2017
 (sections 2.2, 2.3 and 2.6.7).  Bytes are modelled by characters.
 */
module Shell {
  import opened Options

  /*** The reader ***/

  datatype Mode = Plain | Escaped | Single | Double | DoubleEscaped | Comment

  /** `word` is the token being formed, `line` the finished tokens of this line. */
  datatype Reader =
    | Reading(mode: Mode, word: Option<string>, line: seq<string>, lines: seq<seq<string>>)
    | Stuck

  function Fresh(lines: seq<seq<string>>): Reader {
    Reading(Plain, None, [], lines)
  }

  function AddIn(r: Reader, text: string, mode: Mode): Reader
    requires r.Reading?
  {
    Reading(mode, Some((if r.word.Some? then r.word.value else "") + text), r.line, r.lines)
  }

  function Add(r: Reader, text: string): (t: Reader)
    requires r.Reading?
    ensures t.Reading? && t.mode == r.mode
  {
    AddIn(r, text, r.mode)
  }

  function EndWord(r: Reader): seq<string>
    requires r.Reading?
  {
    if r.word.Some? then r.line + [r.word.value] else r.line
  }

  /**
   One character.  The reader is stuck on a NUL, and on any unquoted character that starts an
   operator or an expansion: such text is not a plain list of words.
   */
  function Read(r: Reader, c: char): Reader {
    if r.Stuck? || c == '\0' then Stuck
    else match r.mode
      case Plain =>
        if c == '\'' then AddIn(r, "", Single)
        else if c == '"' then AddIn(r, "", Double)
        else if c == '\\' then r.(mode := Escaped)
        else if c == '\n' then Fresh(r.lines + [EndWord(r)])
        else if c == ' ' || c == '\t' then r.(word := None, line := EndWord(r))
        else if c == '#' && r.word.None? then r.(mode := Comment)
        else if c in "|&;<>()$`*?[~" then Stuck
        else Add(r, [c])
      case Escaped => if c == '\n' then r.(mode := Plain) else AddIn(r, [c], Plain)
      case Single => if c == '\'' then r.(mode := Plain) else Add(r, [c])
      case Double =>
        if c == '"' then r.(mode := Plain)
        else if c == '\\' then r.(mode := DoubleEscaped)
        else if c == '$' || c == '`' then Stuck
        else Add(r, [c])
      case DoubleEscaped =>
        if c == '\n' then r.(mode := Double)
        else if c in "$`\"\\" then AddIn(r, [c], Double)
        else AddIn(r, ['\\', c], Double)
      case Comment => if c == '\n' then Fresh(r.lines + [EndWord(r)]) else r
  }

  function ReadAll(r: Reader, text: string): Reader
    decreases |text|
  {
    if text == "" then r else ReadAll(Read(r, text[0]), text[1..])
  }

  /** The lines of words in a text; None if it is stuck or ends inside a quotation. */
  function Parse(text: string): Option<seq<seq<string>>> {
    var r := ReadAll(Fresh([]), text);
    if r.Stuck? || !(r.mode.Plain? || r.mode.Comment?) then None
    else Some(r.lines + if EndWord(r) == [] then [] else [EndWord(r)])
  }

  lemma {:induction false} ReadConcat(r: Reader, a: string, b: string)
    ensures ReadAll(r, a + b) == ReadAll(ReadAll(r, a), b)
    decreases |a|
  {
    hide Read;
    if a == "" {
      assert a + b == b;
    } else {
      assert (a + b)[1..] == a[1..] + b;
      ReadConcat(Read(r, a[0]), a[1..], b);
    }
  }

  lemma {:induction false} NulSticks(r: Reader, text: string)
    requires r.Stuck? || '\0' in text
    ensures ReadAll(r, text) == Stuck
    decreases |text|
  {
    if text != "" { NulSticks(Read(r, text[0]), text[1..]); }
  }

  /*** The quoter ***/

  predicate SafeChar(c: char) {
    'a' <= c <= 'z' || 'A' <= c <= 'Z' || '0' <= c <= '9' || c in "_-./:,=+@%"
  }

  predicate IsShellSafeWord(s: string) {
    forall k :: 0 <= k < |s| ==> SafeChar(s[k])
  }

  /** Every single quote becomes: close, a double-quoted quote, reopen. */
  function ReplaceQuotes(s: string): string {
    if s == "" then "" else (if s[0] == '\'' then "'\"'\"'" else [s[0]]) + ReplaceQuotes(s[1..])
  }

  function ShellQuote(s: string): string {
    if s == "" then "''"
    else if IsShellSafeWord(s) then s
    else "'" + ReplaceQuotes(s) + "'"
  }

  function Quoted(args: seq<string>): seq<string> {
    seq(|args|, i requires 0 <= i < |args| => ShellQuote(args[i]))
  }

  function JoinWith(parts: seq<string>, sep: string): string {
    if parts == [] then ""
    else if |parts| == 1 then parts[0]
    else JoinWith(parts[..|parts| - 1], sep) + sep + parts[|parts| - 1]
  }

  function Joined(args: seq<string>): string {
    JoinWith(Quoted(args), " ")
  }

  method ShellJoin(args: seq<string>) returns (text: string)
    ensures text == Joined(args)
  {
    var quoted: seq<string> := [];
    for i := 0 to |args|
      invariant quoted == Quoted(args[..i])
    {
      quoted := quoted + [ShellQuote(args[i])];
    }
    assert args[..|args|] == args;
    text := JoinWith(quoted, " ");
  }

  /*** Reading back what was quoted ***/

  lemma ReadSafeChar(r: Reader, c: char)
    requires r.Reading? && r.mode.Plain? && SafeChar(c)
    ensures Read(r, c) == Add(r, [c])
  {
  }

  lemma {:induction false} ReadSafe(r: Reader, s: string)
    requires r.Reading? && r.mode.Plain? && IsShellSafeWord(s)
    ensures ReadAll(r, s) == if s == "" then r else Add(r, s)
    decreases |s|
  {
    hide Read, Add;
    if s != "" {
      ReadSafeChar(r, s[0]);
      ReadSafe(Add(r, [s[0]]), s[1..]);
      assert [s[0]] + s[1..] == s;
      AddTwice(r, [s[0]], s[1..]);
      if |s| == 1 { assert s == [s[0]]; }
    }
  }

  lemma AddTwice(r: Reader, a: string, b: string)
    requires r.Reading?
    ensures Add(Add(r, a), b) == Add(r, a + b)
  {
    var w := if r.word.Some? then r.word.value else "";
    assert w + a + b == w + (a + b);
  }

  lemma ReadQuoteDance(r: Reader)
    requires r.Reading? && r.mode.Single? && r.word.Some?
    ensures ReadAll(r, "'\"'\"'") == Add(r, "'")
  {
    var text := "'\"'\"'";
    var r1 := Read(r, '\'');
    var r2 := Read(r1, '"');
    var r3 := Read(r2, '\'');
    var r4 := Read(r3, '"');
    var r5 := Read(r4, '\'');
    assert text[1..] == "\"'\"'" && text[1..][1..] == "'\"'" && text[1..][1..][1..] == "\"'"
        && text[1..][1..][1..][1..] == "'" && text[1..][1..][1..][1..][1..] == "";
    assert ReadAll(r4, "'") == r5;
    assert ReadAll(r3, "\"'") == ReadAll(r4, "'");
    var v := r.word.value;
    assert v + "" == v && v + "'" + "" == v + "'";
    assert r5 == Add(r, "'");
  }

  lemma {:induction false} ReadReplaced(r: Reader, s: string)
    requires r.Reading? && r.mode.Single? && r.word.Some? && '\0' !in s
    ensures ReadAll(r, ReplaceQuotes(s)) == Add(r, s)
    decreases |s|
  {
    hide ReadAll, Read;
    if s == "" {
      ReadNothing(r);
    } else {
      var head := if s[0] == '\'' then "'\"'\"'" else [s[0]];
      ReadConcat(r, head, ReplaceQuotes(s[1..]));
      if s[0] == '\'' { ReadQuoteDance(r); } else { ReadOneQuoted(r, s[0]); }
      ReadReplaced(Add(r, [s[0]]), s[1..]);
      AddTwice(r, [s[0]], s[1..]);
      assert [s[0]] + s[1..] == s;
    }
  }

  lemma ReadNothing(r: Reader)
    ensures ReadAll(r, "") == r
    ensures r.Reading? && r.word.Some? ==> Add(r, "") == r
  {
    if r.Reading? && r.word.Some? { assert r.word.value + "" == r.word.value; }
  }

  lemma ReadOneQuoted(r: Reader, c: char)
    requires r.Reading? && r.mode.Single? && c != '\'' && c != '\0'
    ensures ReadAll(r, [c]) == Add(r, [c])
  {
    assert [c][1..] == "";
  }

  lemma ReadOne(r: Reader, c: char)
    ensures ReadAll(r, [c]) == Read(r, c)
  {
    assert [c][1..] == "";
  }

  /** A quoted string is read as exactly one word, whatever it holds but a NUL. */
  lemma ReadQuoted(r: Reader, s: string)
    requires r.Reading? && r.mode.Plain? && r.word.None? && '\0' !in s
    ensures ReadAll(r, ShellQuote(s)) == r.(word := Some(s))
  {
    hide ReadAll;
    if s == "" {
      ReadConcat(r, "'", "'");
      assert "'" + "'" == "''";
      ReadOne(r, '\'');
      ReadOne(Read(r, '\''), '\'');
      assert "" + "" == "";
    } else if IsShellSafeWord(s) {
      ReadSafe(r, s);
      assert "" + s == s;
    } else {
      var open := Read(r, '\'');
      ReadConcat(r, "'" + ReplaceQuotes(s), "'");
      ReadConcat(r, "'", ReplaceQuotes(s));
      ReadOne(r, '\'');
      ReadReplaced(open, s);
      ReadOne(Add(open, s), '\'');
      assert "" + "" == "" && "" + s == s;
    }
  }

  predicate NulFree(args: seq<string>) {
    forall k :: 0 <= k < |args| ==> '\0' !in args[k]
  }

  lemma {:induction false} ReadJoined(r: Reader, args: seq<string>)
    requires r.Reading? && r.mode.Plain? && r.word.None? && r.line == [] && NulFree(args)
    ensures ReadAll(r, Joined(args))
         == if args == [] then r else r.(line := args[..|args| - 1], word := Some(args[|args| - 1]))
    decreases |args|
  {
    hide ReadAll, ShellQuote;
    if args == [] {
      ReadNothing(r);
    } else {
      var init, last := args[..|args| - 1], args[|args| - 1];
      assert Quoted(args)[..|args| - 1] == Quoted(init);
      if init == [] {
        ReadQuoted(r, last);
      } else {
        ReadJoined(r, init);
        ReadConcat(r, Joined(init) + " ", ShellQuote(last));
        ReadConcat(r, Joined(init), " ");
        var mid := r.(line := init[..|init| - 1], word := Some(init[|init| - 1]));
        ReadOne(mid, ' ');
        assert EndWord(mid) == init;
        ReadQuoted(r.(line := init), last);
      }
    }
  }

  lemma {:induction false} QuoteKeepsNul(s: string)
    ensures '\0' in ReplaceQuotes(s) <==> '\0' in s
    decreases |s|
  {
    if s != "" {
      QuoteKeepsNul(s[1..]);
      assert s == [s[0]] + s[1..];
    }
  }

  lemma {:induction false} JoinKeepsNul(args: seq<string>)
    ensures '\0' in Joined(args) <==> !NulFree(args)
    decreases |args|
  {
    if args != [] {
      var init, last := args[..|args| - 1], args[|args| - 1];
      assert Quoted(args)[..|args| - 1] == Quoted(init);
      JoinKeepsNul(init);
      QuoteKeepsNul(last);
      assert args == init + [last];
      assert '\0' in ShellQuote(last) <==> '\0' in last;
      assert NulFree(args) <==> NulFree(init) && '\0' !in last;
    }
  }

  /** The text of a list of arguments reads back as exactly that list, if and only if none holds a NUL. */
  lemma JoinRoundTrip(args: seq<string>)
    ensures Parse(Joined(args)) == Some(if args == [] then [] else [args]) <==> NulFree(args)
  {
    hide ReadAll, Joined;
    if NulFree(args) {
      ReadJoined(Fresh([]), args);
      if args != [] {
        assert args[..|args| - 1] + [args[|args| - 1]] == args;
      }
      var r := ReadAll(Fresh([]), Joined(args));
      assert EndWord(r) == args;
      assert r.lines + (if args == [] then [] else [args]) == if args == [] then [] else [args];
    } else {
      JoinKeepsNul(args);
      NulSticks(Fresh([]), Joined(args));
    }
  }

  /*** The launch script ***/

  datatype Step = Step(kind: string, command: seq<string>, backend: string)

  predicate KnownBackend(b: string) {
    b == "process" || b == "docker" || b == "k8s"
  }

  predicate ValidStep(s: Step) {
    s.kind == "command" && s.command != [] && (s.backend == "" || KnownBackend(s.backend))
  }

  method Validate(steps: seq<Step>) returns (ok: bool)
    ensures ok <==> forall k :: 0 <= k < |steps| ==> ValidStep(steps[k])
    ensures ok <==> forall s :: s in steps ==>
      s.kind == "command" && s.command != [] && (s.backend == "" || s.backend == "process" || s.backend == "docker" || s.backend == "k8s")
  {
    for i := 0 to |steps|
      invariant forall k :: 0 <= k < i ==> ValidStep(steps[k])
    {
      var step := steps[i];
      if step.kind == "" {
        return false;
      }
      if step.kind != "command" || |step.command| == 0 {
        return false;
      }
      if step.backend != "" && step.backend != "process" && step.backend != "docker" && step.backend != "k8s" {
        return false;
      }
    }
    return true;
  }

  function Selected(steps: seq<Step>, backend: string): seq<Step> {
    if steps == [] then []
    else
      var last := steps[|steps| - 1];
      Selected(steps[..|steps| - 1], backend) + if last.backend == "" || last.backend == backend then [last] else []
  }

  /** The steps without a backend or with this one, in their order; refused unless all are valid. */
  method StepsForBackend(steps: seq<Step>, backend: string) returns (out: Option<seq<Step>>)
    ensures out.Some? <==> forall k :: 0 <= k < |steps| ==> ValidStep(steps[k])
    ensures out.Some? ==> out.value == Selected(steps, backend)
    ensures out.Some? ==> forall s :: s in out.value <==> s in steps && (s.backend == "" || s.backend == backend)
    ensures out.Some? <==> forall s :: s in steps ==>
      s.kind == "command" && s.command != [] && (s.backend == "" || s.backend == "process" || s.backend == "docker" || s.backend == "k8s")
  {
    var ok := Validate(steps);
    if !ok {
      return None;
    }
    var selected: seq<Step> := [];
    for i := 0 to |steps|
      invariant selected == Selected(steps[..i], backend)
      invariant forall s :: s in selected <==> s in steps[..i] && (s.backend == "" || s.backend == backend)
    {
      assert steps[..i + 1][..i] == steps[..i];
      assert forall s :: s in steps[..i + 1] <==> s in steps[..i] || s == steps[i];
      var step := steps[i];
      if step.backend != "" && step.backend != backend {
        continue;
      }
      selected := selected + [step];
    }
    assert steps[..|steps|] == steps;
    return Some(selected);
  }

  /** Step by step, in order: each one that names no backend or this one, as often as it comes. */
  lemma {:induction false} SelectedConcat(a: seq<Step>, b: seq<Step>, backend: string)
    ensures Selected(a + b, backend) == Selected(a, backend) + Selected(b, backend)
    decreases |b|
  {
    if b == [] {
      assert a + b == a;
    } else {
      var init, last, all := b[..|b| - 1], b[|b| - 1], a + b;
      assert all[..|all| - 1] == a + init;
      SelectedConcat(a, init, backend);
      var one := if last.backend == "" || last.backend == backend then [last] else [];
      assert Selected(a, backend) + Selected(init, backend) + one == Selected(a, backend) + (Selected(init, backend) + one);
    }
  }

  lemma SelectedOne(s: Step, backend: string)
    ensures Selected([s], backend) == if s.backend == "" || s.backend == backend then [s] else []
  {
    assert [s][..0] == [];
  }

  function PrefixLine(line: string): string {
    if line == "" then "" else if line[|line| - 1] == '\n' then line else line + "\n"
  }

  /** The raw lines a caller puts in front, each ended by a line feed. */
  function PrefixText(prefixLines: seq<string>): string {
    if prefixLines == [] then ""
    else
      var last := prefixLines[|prefixLines| - 1];
      PrefixText(prefixLines[..|prefixLines| - 1]) + PrefixLine(last)
  }

  /** Every prefix line is there in order and ends its line; empty ones leave nothing behind. */
  lemma {:induction false} PrefixConcat(a: seq<string>, b: seq<string>)
    ensures PrefixText(a + b) == PrefixText(a) + PrefixText(b)
    decreases |b|
  {
    hide PrefixLine;
    if b == [] {
      assert a + b == a;
    } else {
      var init, last, all := b[..|b| - 1], b[|b| - 1], a + b;
      assert all[..|all| - 1] == a + init;
      PrefixConcat(a, init);
      assert PrefixText(a) + PrefixText(init) + PrefixLine(last) == PrefixText(a) + (PrefixText(init) + PrefixLine(last));
    }
  }

  lemma PrefixOne(line: string)
    ensures PrefixText([line]) == if line == "" then "" else if line[|line| - 1] == '\n' then line else line + "\n"
  {
    assert [line][..0] == [];
  }

  /** The text of one command per line. */
  function CommandText(commands: seq<seq<string>>): string {
    if commands == [] then ""
    else CommandText(commands[..|commands| - 1]) + (Joined(commands[|commands| - 1]) + "\n")
  }

  function Commands(steps: seq<Step>): seq<seq<string>> {
    seq(|steps|, i requires 0 <= i < |steps| => steps[i].command)
  }

  /** What the script is meant to run after its prefix. */
  function Program(steps: seq<Step>, baseCommand: seq<string>, workDir: string): seq<seq<string>> {
    (if workDir == "" then [] else [["cd", workDir]]) + Commands(steps) + [["exec"] + baseCommand]
  }

  lemma PrefixMore(lines: seq<string>, i: nat)
    requires i < |lines|
    ensures PrefixText(lines[..i + 1]) == PrefixText(lines[..i]) + PrefixLine(lines[i])
  {
    hide PrefixLine;
    assert lines[..i + 1][..i] == lines[..i];
  }

  lemma NoPrefix(before: string, lines: seq<string>)
    ensures before + PrefixText(lines[..0]) == before
  {
  }

  method WritePrefix(before: string, prefixLines: seq<string>) returns (b: string)
    ensures b == before + PrefixText(prefixLines)
  {
    hide PrefixText;
    b := before;
    NoPrefix(before, prefixLines);
    for i := 0 to |prefixLines|
      invariant b == before + PrefixText(prefixLines[..i])
    {
      PrefixMore(prefixLines, i);
      var line := prefixLines[i];
      if line == "" {
        assert PrefixText(prefixLines[..i]) + "" == PrefixText(prefixLines[..i]);
        continue;
      }
      ghost var b0 := b;
      b := b + line;
      if line[|line| - 1] != '\n' {
        b := b + "\n";
        assert b == b0 + (line + "\n");
      }
      assert b == b0 + PrefixLine(line);
    }
    assert prefixLines[..|prefixLines|] == prefixLines;
  }

  method WriteSteps(before: string, steps: seq<Step>) returns (b: string)
    ensures b == before + CommandText(Commands(steps))
  {
    hide Joined;
    b := before;
    for i := 0 to |steps|
      invariant b == before + CommandText(Commands(steps[..i]))
    {
      assert Commands(steps[..i + 1])[..i] == Commands(steps[..i]);
      var line := ShellJoin(steps[i].command);
      b := b + line;
      b := b + "\n";
      assert b == before + (CommandText(Commands(steps[..i])) + (line + "\n"));
    }
    assert steps[..|steps|] == steps;
  }

  method BuildLaunchScript(prefixLines: seq<string>, steps: seq<Step>, baseCommand: seq<string>, workDir: string)
    returns (script: Option<string>)
    ensures script.None? <==> baseCommand == []
    ensures script.Some? ==>
      script.value == "set -e\n" + PrefixText(prefixLines) + CommandText(Program(steps, baseCommand, workDir))
  {
    hide CommandText, PrefixText, Joined, ShellQuote, Commands;
    if |baseCommand| == 0 {
      return None;
    }
    var b := "set -e\n";
    b := WritePrefix(b, prefixLines);
    if workDir != "" {
      b := b + "cd ";
      b := b + ShellQuote(workDir);
      b := b + "\n";
    }
    b := WriteSteps(b, steps);
    b := b + "exec ";
    var line := ShellJoin(baseCommand);
    b := b + line;
    b := b + "\n";
    ProgramText("set -e\n" + PrefixText(prefixLines), steps, baseCommand, workDir);
    return Some(b);
  }

  /** The pieces written one by one are the text of the program. */
  lemma ProgramText(head: string, steps: seq<Step>, baseCommand: seq<string>, workDir: string)
    requires baseCommand != []
    ensures (if workDir == "" then head else head + "cd " + ShellQuote(workDir) + "\n")
            + CommandText(Commands(steps)) + "exec " + Joined(baseCommand) + "\n"
         == head + CommandText(Program(steps, baseCommand, workDir))
  {
    hide ShellQuote, Joined, CommandText;
    var exec := [["exec"] + baseCommand];
    CommandTextConcat(Commands(steps), exec);
    ExecText(baseCommand);
    var body := Commands(steps) + exec;
    if workDir == "" {
      assert Program(steps, baseCommand, workDir) == body;
    } else {
      CdText(workDir);
      CommandTextConcat([["cd", workDir]], body);
      assert Program(steps, baseCommand, workDir) == [["cd", workDir]] + body;
    }
  }

  lemma {:induction false} CommandTextConcat(a: seq<seq<string>>, b: seq<seq<string>>)
    ensures CommandText(a + b) == CommandText(a) + CommandText(b)
    decreases |b|
  {
    hide Joined;
    if b == [] {
      assert a + b == a;
    } else {
      assert (a + b)[..|a + b| - 1] == a + b[..|b| - 1];
      CommandTextConcat(a, b[..|b| - 1]);
    }
  }

  lemma CdText(workDir: string)
    requires workDir != ""
    ensures CommandText([["cd", workDir]]) == "cd " + ShellQuote(workDir) + "\n"
  {
    hide Joined;
    JoinedAfter("cd", [workDir]);
    assert ["cd"] + [workDir] == ["cd", workDir];
    JoinedOne(workDir);
    assert [["cd", workDir]][..0] == [];
    assert "cd" + " " == "cd ";
  }

  lemma JoinedOne(arg: string)
    ensures Joined([arg]) == ShellQuote(arg)
  {
    assert Quoted([arg]) == [ShellQuote(arg)];
  }

  lemma ExecText(baseCommand: seq<string>)
    requires baseCommand != []
    ensures CommandText([["exec"] + baseCommand]) == "exec " + Joined(baseCommand) + "\n"
  {
    hide Joined;
    JoinedAfter("exec", baseCommand);
    assert [["exec"] + baseCommand][..0] == [];
    assert "exec" + " " == "exec ";
  }

  lemma {:induction false} JoinedAfter(word: string, args: seq<string>)
    requires args != [] && word != "" && IsShellSafeWord(word)
    ensures Joined([word] + args) == word + " " + Joined(args)
    decreases |args|
  {
    var init, last, all := args[..|args| - 1], args[|args| - 1], [word] + args;
    assert Quoted(all)[..|all| - 1] == Quoted([word] + init);
    assert Quoted(args)[..|args| - 1] == Quoted(init);
    if init == [] {
      assert args == [last] && [word] + init == [word];
      JoinedOne(word);
      JoinedOne(last);
      assert Quoted([word]) == [word];
    } else {
      JoinedAfter(word, init);
      assert word + " " + Joined(init) + " " + ShellQuote(last) == word + " " + (Joined(init) + " " + ShellQuote(last));
    }
  }

  /** A text of complete lines: the reader is between lines after it. */
  predicate Complete(text: string) {
    var r := ReadAll(Fresh([]), text);
    r.Reading? && r == Fresh(r.lines)
  }

  predicate AllNulFree(commands: seq<seq<string>>) {
    forall k :: 0 <= k < |commands| ==> NulFree(commands[k])
  }

  lemma {:induction false} ReadCommands(lines: seq<seq<string>>, commands: seq<seq<string>>)
    requires AllNulFree(commands)
    ensures ReadAll(Fresh(lines), CommandText(commands)) == Fresh(lines + commands)
    decreases |commands|
  {
    hide ReadAll, Joined;
    if commands == [] {
      ReadNothing(Fresh(lines));
      assert lines + [] == lines;
    } else {
      var init, last := commands[..|commands| - 1], commands[|commands| - 1];
      ReadCommands(lines, init);
      ReadConcat(Fresh(lines), CommandText(init), Joined(last) + "\n");
      ReadConcat(Fresh(lines + init), Joined(last), "\n");
      ReadJoined(Fresh(lines + init), last);
      ReadOne(ReadAll(Fresh(lines + init), Joined(last)), '\n');
      assert lines + init + [last] == lines + commands;
      if last != [] {
        assert last[..|last| - 1] + [last[|last| - 1]] == last;
      }
    }
  }

  /** The commands, one by one: into the working directory, if there is one, then each step's, then the base command instead of the shell. */
  predicate Runs(commands: seq<seq<string>>, steps: seq<Step>, baseCommand: seq<string>, workDir: string) {
    var first := if workDir == "" then 0 else 1;
    && |commands| == first + |steps| + 1
    && (workDir != "" ==> commands[0] == ["cd", workDir])
    && (forall i :: 0 <= i < |steps| ==> commands[first + i] == steps[i].command)
    && commands[first + |steps|] == ["exec"] + baseCommand
  }

  lemma ProgramRuns(steps: seq<Step>, baseCommand: seq<string>, workDir: string)
    ensures Runs(Program(steps, baseCommand, workDir), steps, baseCommand, workDir)
  {
  }

  lemma ReadSetE()
    ensures ReadAll(Fresh([]), "set -e\n") == Fresh([["set", "-e"]])
  {
    var commands := [["set", "-e"]];
    hide ReadAll, Joined;
    ReadCommands([], commands);
    assert commands[..0] == [];
    JoinedAfter("set", ["-e"]);
    JoinedOne("-e");
    assert ["set"] + ["-e"] == ["set", "-e"];
    assert IsShellSafeWord("-e");
    assert Joined(["-e"]) == "-e";
    assert CommandText(commands) == CommandText([]) + (Joined(["set", "-e"]) + "\n");
    assert "" + ("set" + " " + "-e" + "\n") == "set -e\n";
    assert [] + commands == commands;
  }

  /**
   The script reads back as `set -e`, the lines of the prefix, the optional cd, each step's
   argv in order, and exec with the base argv, for every prefix of complete lines.
   */
  lemma ScriptRoundTrip(prefix: string, steps: seq<Step>, baseCommand: seq<string>, workDir: string)
    requires Complete("set -e\n" + prefix) && AllNulFree(Program(steps, baseCommand, workDir))
    ensures var script := "set -e\n" + prefix + CommandText(Program(steps, baseCommand, workDir));
      && Parse("set -e\n" + prefix).Some?
      && Parse(script) == Some(Parse("set -e\n" + prefix).value + Program(steps, baseCommand, workDir))
    ensures Runs(Program(steps, baseCommand, workDir), steps, baseCommand, workDir)
  {
    hide ReadAll, Program;
    ProgramRuns(steps, baseCommand, workDir);
    var head, commands := "set -e\n" + prefix, Program(steps, baseCommand, workDir);
    var r := ReadAll(Fresh([]), head);
    ReadConcat(Fresh([]), head, CommandText(commands));
    ReadCommands(r.lines, commands);
    assert r.lines + [] == r.lines && r.lines + commands + [] == r.lines + commands;
  }

  /** Without prefix lines. */
  lemma PlainScriptRoundTrip(steps: seq<Step>, baseCommand: seq<string>, workDir: string)
    requires AllNulFree(Program(steps, baseCommand, workDir))
    ensures Parse("set -e\n" + PrefixText([]) + CommandText(Program(steps, baseCommand, workDir)))
         == Some([["set", "-e"]] + Program(steps, baseCommand, workDir))
    ensures Runs(Program(steps, baseCommand, workDir), steps, baseCommand, workDir)
  {
    hide ReadAll, Program;
    ProgramRuns(steps, baseCommand, workDir);
    assert "set -e\n" + PrefixText([]) == "set -e\n";
    ReadSetE();
    ScriptRoundTrip("", steps, baseCommand, workDir);
    assert "set -e\n" + "" == "set -e\n";
    assert [["set", "-e"]] + [] == [["set", "-e"]];
  }
}
