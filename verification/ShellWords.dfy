/** Printing a command for an operator to copy, and what a POSIX shell makes of the printed line. */
module ShellWords {
  import opened Wrappers
  import opened Text

  datatype CommandSpec = CommandSpec(program: string, args: seq<string>)

  function ShellQuote(value: string): string {
    "'" + ReplaceChar(value, '\'', "'\"'\"'") + "'"
  }

  function DisplayArgs(args: seq<string>): string {
    if args == [] then "" else " " + ShellQuote(args[0]) + DisplayArgs(args[1..])
  }

  function Display(command: CommandSpec): string {
    ShellQuote(command.program) + DisplayArgs(command.args)
  }

  // The printer pushes one quoted argument at a time onto the output.
  method Print(command: CommandSpec) returns (output: string)
    ensures output == Display(command)
  {
    output := ShellQuote(command.program);
    for i := 0 to |command.args|
      invariant output + DisplayArgs(command.args[i..]) == Display(command)
    {
      output := output + " " + ShellQuote(command.args[i]);
      assert command.args[i..][1..] == command.args[i + 1..];
    }
  }

  // ---- The shell's reading: sections 2.2 (quoting) and 2.3 (token recognition) of the
  // Shell Command Language volume of IEEE Std 1003.1 ----

  datatype Mode = Unquoted | SingleQuoted | DoubleQuoted

  // Characters that, unquoted, start an operator, an expansion, a comment or a pattern.
  predicate NeedsMoreThanQuoteRemoval(c: char) {
    c in "&;|<>()$`*?[~#\n"
  }

  function Extend(word: Option<string>, c: char): Option<string> {
    Some((if word.Some? then word.value else "") + [c])
  }

  function Opened(word: Option<string>): Option<string> {
    Some(if word.Some? then word.value else "")
  }

  function Finish(word: Option<string>, rest: Option<seq<string>>): Option<seq<string>> {
    if rest.None? then None
    else if word.None? then rest
    else Some([word.value] + rest.value)
  }

  /** The words of a line, or None where the line is more than words and quotes
      (an operator, an expansion, an unfinished quotation). */
  function Scan(line: string, mode: Mode, word: Option<string>): Option<seq<string>>
    decreases |line|
  {
    if line == [] then
      if mode.Unquoted? then Finish(word, Some([])) else None
    else
      var c, rest := line[0], line[1..];
      match mode
      case SingleQuoted =>
        // 2.2.2: everything up to the next single quote is literal
        if c == '\'' then Scan(rest, Unquoted, word) else Scan(rest, SingleQuoted, Extend(word, c))
      case DoubleQuoted =>
        // 2.2.3: `$`, a backquote and some backslashes stay special
        if c == '"' then Scan(rest, Unquoted, word)
        else if c == '$' || c == '`' then None
        else if c == '\\' && rest != [] && rest[0] in "$`\"\\" then Scan(rest[1..], DoubleQuoted, Extend(word, rest[0]))
        else if c == '\\' && rest != [] && rest[0] == '\n' then Scan(rest[1..], DoubleQuoted, word)
        else Scan(rest, DoubleQuoted, Extend(word, c))
      case Unquoted =>
        if c == ' ' || c == '\t' then Finish(word, Scan(rest, Unquoted, None))
        else if c == '\'' then Scan(rest, SingleQuoted, Opened(word))
        else if c == '"' then Scan(rest, DoubleQuoted, Opened(word))
        else if c == '\\' then
          // 2.2.1
          if rest == [] then None
          else if rest[0] == '\n' then Scan(rest[1..], Unquoted, word)
          else Scan(rest[1..], Unquoted, Extend(word, rest[0]))
        else if NeedsMoreThanQuoteRemoval(c) then None
        else Scan(rest, Unquoted, Extend(word, c))
  }

  function Words(line: string): Option<seq<string>> {
    Scan(line, Unquoted, None)
  }

  // A quotation mark inside: close, open double quotes, take the mark, close, open again.
  lemma ScanQuotedMark(rest: string, w: string)
    ensures Scan("'\"'\"'" + rest, SingleQuoted, Some(w)) == Scan(rest, SingleQuoted, Some(w + "'"))
  {
    var l0 := "'\"'\"'" + rest;
    assert l0[1..] == "\"'\"'" + rest;
    assert l0[1..][1..] == "'\"'" + rest;
    assert l0[1..][1..][1..] == "\"'" + rest;
    assert l0[1..][1..][1..][1..] == "'" + rest;
    assert l0[1..][1..][1..][1..][1..] == rest;
    assert Scan(l0, SingleQuoted, Some(w)) == Scan("\"'\"'" + rest, Unquoted, Some(w));
    assert Scan("\"'\"'" + rest, Unquoted, Some(w)) == Scan("'\"'" + rest, DoubleQuoted, Some(w));
    assert Scan("'\"'" + rest, DoubleQuoted, Some(w)) == Scan("\"'" + rest, DoubleQuoted, Some(w + "'"));
    assert Scan("\"'" + rest, DoubleQuoted, Some(w + "'")) == Scan("'" + rest, Unquoted, Some(w + "'"));
    assert Scan("'" + rest, Unquoted, Some(w + "'")) == Scan(rest, SingleQuoted, Some(w + "'"));
  }

  lemma {:induction false} ScanQuotedBody(value: string, rest: string, w: string)
    ensures Scan(ReplaceChar(value, '\'', "'\"'\"'") + ("'" + rest), SingleQuoted, Some(w))
            == Scan(rest, Unquoted, Some(w + value))
  {
    var line := ReplaceChar(value, '\'', "'\"'\"'") + ("'" + rest);
    if value == [] {
      assert line[1..] == rest;
      assert w + value == w;
    } else {
      var c, tail := value[0], ReplaceChar(value[1..], '\'', "'\"'\"'") + ("'" + rest);
      assert w + value == (w + [c]) + value[1..];
      if c == '\'' {
        assert line == "'\"'\"'" + tail;
        ScanQuotedMark(tail, w);
      } else {
        assert line == [c] + tail && line[1..] == tail;
      }
      ScanQuotedBody(value[1..], rest, w + [c]);
    }
  }

  lemma ScanQuoted(value: string, rest: string)
    ensures Scan(ShellQuote(value) + rest, Unquoted, None) == Scan(rest, Unquoted, Some(value))
  {
    var line := ShellQuote(value) + rest;
    var body := ReplaceChar(value, '\'', "'\"'\"'") + ("'" + rest);
    assert line == "'" + body && line[1..] == body;
    ScanQuotedBody(value, rest, "");
    assert "" + value == value;
  }

  lemma {:induction false} ScanArgs(args: seq<string>, w: string)
    ensures Scan(DisplayArgs(args), Unquoted, Some(w)) == Some([w] + args)
  {
    if args != [] {
      var rest := ShellQuote(args[0]) + DisplayArgs(args[1..]);
      assert DisplayArgs(args) == " " + rest && DisplayArgs(args)[1..] == rest;
      ScanQuoted(args[0], DisplayArgs(args[1..]));
      ScanArgs(args[1..], args[0]);
      assert [args[0]] + args[1..] == args;
    }
  }

  /** Copying a printed command into a POSIX shell runs exactly that program with exactly those arguments,
      whatever characters they hold. */
  lemma DisplayRoundTrip(command: CommandSpec)
    ensures Words(Display(command)) == Some([command.program] + command.args)
  {
    ScanQuoted(command.program, DisplayArgs(command.args));
    ScanArgs(command.args, command.program);
  }

  // So two commands print alike only if they are the same command.
  lemma DisplayInjective(a: CommandSpec, b: CommandSpec)
    requires Display(a) == Display(b)
    ensures a == b
  {
    DisplayRoundTrip(a);
    DisplayRoundTrip(b);
    assert ([a.program] + a.args)[1..] == a.args && ([b.program] + b.args)[1..] == b.args;
  }
}
