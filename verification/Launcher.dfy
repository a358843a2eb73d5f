/** The node launcher script, and its exec command as a POSIX shell reads it (XCU sections 2.2 and 2.3). */
module Launcher {
  import opened Stepping
  import Sums

  const NUL: char := 0 as char

  // ---- The printer ----

  datatype Script = Script(binary: string, args: seq<string>, note: string, strict: bool, preamble: seq<string>)

  /** Every single quote replaced by: close, escaped quote, reopen. */
  function Escaped(s: string): string {
    if s == "" then "" else (if s[0] == '\'' then "'\\''" else [s[0]]) + Escaped(s[1..])
  }

  function ShQuote(s: string): string {
    "'" + Escaped(s) + "'"
  }

  function Join(lines: seq<string>): string {
    if lines == [] then ""
    else if |lines| == 1 then lines[0]
    else lines[0] + "\n" + Join(lines[1..])
  }

  const SHEBANG := "#!/bin/sh"
  const BANNER := "# auto-generated by evm-benchmark"
  const SET := "set -eu"
  const CHANGE_DIR := "cd \"$(dirname \"$0\")\""

  function Prologue(s: Script): string {
    (SHEBANG + "\n" + (BANNER + s.note) + "\n\n")
    + (if s.strict then SET + "\n\n" else "")
    + (CHANGE_DIR + "\n\n")
    + (if |s.preamble| > 0 then Join(s.preamble) + "\n\n" else "")
  }

  /** An argument's line, continued unless it is the last. */
  function ArgLine(arg: string, last: bool): string {
    "  " + ShQuote(arg) + (if last then "" else " \\") + "\n"
  }

  function ArgLines(args: seq<string>): string {
    if args == [] then "" else ArgLine(args[0], |args| == 1) + ArgLines(args[1..])
  }

  function ExecLine(binary: string): string {
    "exec " + ShQuote(binary) + " \\\n"
  }

  function ExecCommand(s: Script): string {
    ExecLine(s.binary) + ArgLines(s.args)
  }

  method RenderPrologue(s: Script) returns (b: string)
    ensures b == Prologue(s)
  {
    b := SHEBANG + "\n" + (BANNER + s.note) + "\n\n";
    if s.strict {
      b := b + (SET + "\n\n");
    }
    b := b + (CHANGE_DIR + "\n\n");
    if |s.preamble| > 0 {
      b := b + (Join(s.preamble) + "\n\n");
    }
  }

  method RenderArg(arg: string, last: bool) returns (b: string)
    ensures b == ArgLine(arg, last)
  {
    b := "  " + ShQuote(arg);
    if !last {
      b := b + " \\";
    }
    b := b + "\n";
  }

  /** The launcher's text, written piece by piece. */
  method Render(s: Script) returns (b: string)
    ensures b == Prologue(s) + ExecCommand(s)
  {
    b := RenderPrologue(s);
    b := b + ExecLine(s.binary);
    Sums.Regroup(Prologue(s), ExecLine(s.binary), ArgLines(s.args));
    for i := 0 to |s.args|
      invariant b + ArgLines(s.args[i..]) == Prologue(s) + ExecCommand(s)
    {
      var line := RenderArg(s.args[i], i == |s.args| - 1);
      assert s.args[i..][1..] == s.args[i + 1..];
      Sums.Regroup(b, line, ArgLines(s.args[i + 1..]));
      b := b + line;
    }
    assert s.args[|s.args|..] == [] && b + "" == b;
  }

  // ---- The lines before the command ----

  function Lines(s: string): (r: seq<string>)
    ensures r != []
  {
    if s == "" then [""]
    else if s[0] == '\n' then [""] + Lines(s[1..])
    else
      var r := Lines(s[1..]);
      [[s[0]] + r[0]] + r[1..]
  }

  lemma {:induction false} LinesBreak(a: string, b: string)
    ensures Lines(a + ("\n" + b)) == Lines(a) + Lines(b)
  {
    var s := a + ("\n" + b);
    if a == "" {
      assert s[0] == '\n' && s[1..] == b;
    } else {
      assert s[0] == a[0] && s[1..] == a[1..] + ("\n" + b);
      LinesBreak(a[1..], b);
      if a[0] == '\n' {
        Sums.Regroup([""], Lines(a[1..]), Lines(b));
      }
    }
  }

  function LinesOfAll(texts: seq<string>): seq<string> {
    if texts == [] then [] else Lines(texts[0]) + LinesOfAll(texts[1..])
  }

  lemma {:induction false} LinesOfJoin(texts: seq<string>, rest: string)
    requires texts != []
    ensures Lines(Join(texts) + ("\n" + rest)) == LinesOfAll(texts) + Lines(rest)
  {
    if |texts| == 1 {
      LinesBreak(texts[0], rest);
      assert texts[1..] == [] && LinesOfAll(texts) == Lines(texts[0]);
    } else {
      LinesOfJoin(texts[1..], rest);
      assert Join(texts) + ("\n" + rest) == texts[0] + ("\n" + (Join(texts[1..]) + ("\n" + rest)));
      LinesBreak(texts[0], Join(texts[1..]) + ("\n" + rest));
      Sums.Regroup(Lines(texts[0]), LinesOfAll(texts[1..]), Lines(rest));
    }
  }

  lemma OneLine(line: string, rest: string)
    requires '\n' !in line
    ensures Lines(line + ("\n" + rest)) == [line] + Lines(rest)
    decreases |line|
  {
    LinesBreak(line, rest);
    PlainLine(line);
  }

  lemma {:induction false} PlainLine(line: string)
    requires '\n' !in line
    ensures Lines(line) == [line]
  {
    if line != "" {
      PlainLine(line[1..]);
      assert [line[0]] + line[1..] == line && [line[1..]][1..] == [];
    }
  }

  lemma TwoBreaks(x: string, rest: string)
    ensures x + "\n\n" + rest == x + ("\n" + ("" + ("\n" + rest)))
  {
    assert "\n\n" == "\n" + "\n";
    Sums.Regroup(x, "\n" + "\n", rest);
    Sums.Regroup("\n", "\n", rest);
    assert "" + ("\n" + rest) == "\n" + rest;
  }

  /** A block of lines with an empty one after it. */
  lemma Paragraph(line: string, rest: string)
    requires '\n' !in line
    ensures Lines(line + "\n\n" + rest) == [line, ""] + Lines(rest)
  {
    TwoBreaks(line, rest);
    OneLine(line, "" + ("\n" + rest));
    OneLine("", rest);
  }

  lemma Paragraphs(texts: seq<string>, rest: string)
    requires texts != []
    ensures Lines(Join(texts) + "\n\n" + rest) == LinesOfAll(texts) + [""] + Lines(rest)
  {
    TwoBreaks(Join(texts), rest);
    LinesOfJoin(texts, "" + ("\n" + rest));
    OneLine("", rest);
  }

  lemma PerhapsParagraph(on: bool, line: string, rest: string)
    requires '\n' !in line
    ensures Lines((if on then line + "\n\n" else "") + rest) == (if on then [line, ""] else []) + Lines(rest)
  {
    if on {
      Paragraph(line, rest);
    } else {
      assert "" + rest == rest;
    }
  }

  lemma PerhapsParagraphs(texts: seq<string>, rest: string)
    ensures Lines((if |texts| > 0 then Join(texts) + "\n\n" else "") + rest)
      == (if texts == [] then [] else LinesOfAll(texts) + [""]) + Lines(rest)
  {
    if texts != [] {
      Paragraphs(texts, rest);
    } else {
      assert "" + rest == rest;
    }
  }

  lemma Grouped<T>(a: seq<T>, b: seq<T>, c: seq<T>, d: seq<T>, e: seq<T>)
    ensures a + b + c + d + e == a + (b + (c + (d + e)))
  {
    Sums.Regroup(a + b + c, d, e);
    Sums.Regroup(a + b, c, d + e);
    Sums.Regroup(a, b, c + (d + e));
  }

  /** The lines of a header, perhaps a mode line, a directory line and perhaps more lines, before a command. */
  lemma Assembled(first: string, banner: string, mode: string, moded: bool, dir: string, more: seq<string>, command: string)
    requires '\n' !in first && '\n' !in banner && '\n' !in mode && '\n' !in dir
    ensures Lines((first + "\n" + banner + "\n\n") + (if moded then mode + "\n\n" else "") + (dir + "\n\n")
        + (if |more| > 0 then Join(more) + "\n\n" else "") + command)
      == [first, banner, ""] + (if moded then [mode, ""] else []) + [dir, ""]
        + (if more == [] then [] else LinesOfAll(more) + [""]) + Lines(command)
  {
    var perhaps, lines := if moded then mode + "\n\n" else "", if |more| > 0 then Join(more) + "\n\n" else "";
    Grouped(first + "\n" + banner + "\n\n", perhaps, dir + "\n\n", lines, command);
    var fromMode := perhaps + (dir + "\n\n" + (lines + command));
    FirstLines(first, banner, fromMode);
    PerhapsParagraph(moded, mode, dir + "\n\n" + (lines + command));
    Paragraph(dir, lines + command);
    PerhapsParagraphs(more, command);
    Grouped([first, banner, ""], if moded then [mode, ""] else [], [dir, ""],
      if more == [] then [] else LinesOfAll(more) + [""], Lines(command));
  }

  lemma FirstLines(first: string, banner: string, rest: string)
    requires '\n' !in first && '\n' !in banner
    ensures Lines((first + "\n" + banner + "\n\n") + rest) == [first, banner, ""] + Lines(rest)
  {
    assert (first + "\n" + banner + "\n\n") + rest == first + ("\n" + (banner + "\n\n" + rest));
    OneLine(first, banner + "\n\n" + rest);
    Paragraph(banner, rest);
  }

  /** The script: a header, strict mode if asked for, the change of directory and the caller's lines, then the command. */
  lemma ScriptLines(s: Script)
    requires '\n' !in s.note
    ensures Lines(Prologue(s) + ExecCommand(s)) == ["#!/bin/sh", "# auto-generated by evm-benchmark" + s.note, ""]
      + (if s.strict then ["set -eu", ""] else []) + ["cd \"$(dirname \"$0\")\"", ""]
      + (if s.preamble == [] then [] else LinesOfAll(s.preamble) + [""]) + Lines(ExecCommand(s))
  {
    Assembled(SHEBANG, BANNER + s.note, SET, s.strict, CHANGE_DIR, s.preamble, ExecCommand(s));
  }

  // ---- The reader ----

  /** A command's words, and the input after the newline that ends it. */
  datatype Command = Command(words: seq<string>, rest: string)

  /** Characters an unquoted word cannot hold as they are. */
  predicate Special(c: char) {
    c in "|&;<>()$`\"*?[#~=%"
  }

  function Delimited(words: seq<string>, word: Option<string>): seq<string> {
    if word.Some? then words + [word.value] else words
  }

  /**
   Token recognition for words made of plain characters, escapes and single quotes; anything else
   is None. quoted is inside single quotes; word is the word begun, if one is.
   */
  function Scan(s: string, quoted: bool, word: Option<string>, words: seq<string>): Option<Command>
    decreases |s|
  {
    if s == "" then (if quoted then None else Some(Command(Delimited(words, word), "")))
    else if quoted then
      (if s[0] == '\'' then Scan(s[1..], false, word, words)
       else Scan(s[1..], true, Some(word.GetOr("") + [s[0]]), words))
    else if s[0] == '\n' then Some(Command(Delimited(words, word), s[1..]))
    else if s[0] == ' ' || s[0] == '\t' then Scan(s[1..], false, None, Delimited(words, word))
    else if s[0] == '\'' then Scan(s[1..], true, Some(word.GetOr("")), words)
    else if s[0] == '\\' then
      (if |s| == 1 then None
       else if s[1] == '\n' then Scan(s[2..], false, word, words)
       else Scan(s[2..], false, Some(word.GetOr("") + [s[1]]), words))
    else if Special(s[0]) then None
    else Scan(s[1..], false, Some(word.GetOr("") + [s[0]]), words)
  }

  /** Shell input is text, which holds no NUL. */
  function FirstCommand(s: string): Option<Command> {
    if NUL in s then None else Scan(s, false, None, [])
  }

  // ---- Reading what was printed ----

  predicate Ordinary(c: char) {
    c != '\n' && c != ' ' && c != '\t' && c != '\'' && c != '\\' && !Special(c)
  }

  lemma {:induction false} ScanPlain(w: string, tail: string, word: string, words: seq<string>)
    requires forall i :: 0 <= i < |w| ==> Ordinary(w[i])
    ensures Scan(w + tail, false, Some(word), words) == Scan(tail, false, Some(word + w), words)
  {
    if w == "" {
      assert w + tail == tail && word + w == word;
    } else {
      assert (w + tail)[1..] == w[1..] + tail;
      ScanPlain(w[1..], tail, word + [w[0]], words);
      assert word + [w[0]] + w[1..] == word + w;
    }
  }

  lemma ScanFirst(c: char, tail: string, words: seq<string>)
    requires Ordinary(c)
    ensures Scan([c] + tail, false, None, words) == Scan(tail, false, Some([c]), words)
  {
    assert ([c] + tail)[1..] == tail;
    assert "" + [c] == [c];
  }

  lemma ScanEscape(c: char, tail: string, word: string, words: seq<string>)
    requires c != '\n'
    ensures Scan("\\" + ([c] + tail), false, Some(word), words) == Scan(tail, false, Some(word + [c]), words)
  {
    assert ("\\" + ([c] + tail))[2..] == tail;
  }

  /** Inside quotes: close, escaped quote, reopen. */
  lemma ScanEscapedQuote(tail: string, word: string, words: seq<string>)
    ensures Scan("'\\''" + tail, true, Some(word), words) == Scan(tail, true, Some(word + "'"), words)
  {
    assert "'\\''" + tail == "'" + ("\\" + ("'" + ("'" + tail)));
    ScanEscape('\'', "'" + tail, word, words);
  }

  lemma {:induction false} ScanEscaped(x: string, rest: string, word: string, words: seq<string>)
    ensures Scan(Escaped(x) + ("'" + rest), true, Some(word), words) == Scan(rest, false, Some(word + x), words)
  {
    if x == "" {
      assert Escaped(x) + ("'" + rest) == "'" + rest && word + x == word;
    } else {
      var tail := Escaped(x[1..]) + ("'" + rest);
      ScanEscaped(x[1..], rest, word + [x[0]], words);
      assert word + [x[0]] + x[1..] == word + x;
      if x[0] == '\'' {
        Sums.Regroup("'\\''", Escaped(x[1..]), "'" + rest);
        ScanEscapedQuote(tail, word, words);
      } else {
        Sums.Regroup([x[0]], Escaped(x[1..]), "'" + rest);
      }
    }
  }

  /** A quoted string is one word, whatever it holds; empty strings included. */
  lemma ScanQuoted(x: string, rest: string, words: seq<string>)
    ensures Scan(ShQuote(x) + rest, false, None, words) == Scan(rest, false, Some(x), words)
  {
    assert ShQuote(x) + rest == "'" + (Escaped(x) + ("'" + rest));
    ScanEscaped(x, rest, "", words);
    assert "" + x == x;
  }

  /** A space ends the word, and an escaped newline joins the lines. */
  lemma ScanContinuation(x: string, rest: string, words: seq<string>)
    ensures Scan(" \\\n" + rest, false, Some(x), words) == Scan(rest, false, None, words + [x])
  {
    var s := " \\\n" + rest;
    assert s[1..] == "\\\n" + rest && s[1..][2..] == rest;
    assert Scan(s, false, Some(x), words) == Scan(s[1..], false, None, words + [x]);
  }

  /** A quoted word on a continued line. */
  lemma ScanLine(x: string, rest: string, words: seq<string>)
    ensures Scan(ShQuote(x) + (" \\\n" + rest), false, None, words) == Scan(rest, false, None, words + [x])
  {
    ScanQuoted(x, " \\\n" + rest, words);
    ScanContinuation(x, rest, words);
  }

  lemma ScanLast(x: string, words: seq<string>)
    ensures Scan(ArgLine(x, true), false, None, words) == Some(Command(words + [x], ""))
  {
    assert ArgLine(x, true) == "  " + (ShQuote(x) + "\n");
    ScanQuoted(x, "\n", words);
    assert "\n"[1..] == "";
  }

  lemma ScanContinued(x: string, rest: string, words: seq<string>)
    ensures Scan(ArgLine(x, false) + rest, false, None, words) == Scan(rest, false, None, words + [x])
  {
    assert ArgLine(x, false) + rest == "  " + (ShQuote(x) + (" \\\n" + rest));
    ScanLine(x, rest, words);
  }

  lemma {:induction false} ScanArgs(args: seq<string>, words: seq<string>)
    ensures Scan(ArgLines(args), false, None, words) == Some(Command(words + args, ""))
  {
    if args == [] {
      assert words + args == words;
    } else if |args| == 1 {
      ScanLast(args[0], words);
      assert args[1..] == [] && ArgLine(args[0], true) + "" == ArgLine(args[0], true);
      assert [args[0]] == args;
    } else {
      ScanContinued(args[0], ArgLines(args[1..]), words);
      ScanArgs(args[1..], words + [args[0]]);
      assert words + [args[0]] + args[1..] == words + args;
    }
  }

  lemma ScanExec(rest: string)
    ensures Scan("exec " + rest, false, None, []) == Scan(rest, false, None, ["exec"])
  {
    assert Ordinary('e') && Ordinary('x') && Ordinary('c');
    assert "exec " + rest == ['e'] + ("xec" + (" " + rest));
    ScanFirst('e', "xec" + (" " + rest), []);
    ScanPlain("xec", " " + rest, "e", []);
    assert "e" + "xec" == "exec";
    assert Delimited([], Some("exec")) == ["exec"];
  }

  lemma ScanCommand(s: Script)
    ensures Scan(ExecCommand(s), false, None, []) == Some(Command(["exec", s.binary] + s.args, ""))
  {
    var lines := ArgLines(s.args);
    assert ExecCommand(s) == "exec " + (ShQuote(s.binary) + (" \\\n" + lines));
    ScanExec(ShQuote(s.binary) + (" \\\n" + lines));
    ScanLine(s.binary, lines, ["exec"]);
    ScanArgs(s.args, ["exec"] + [s.binary]);
    assert ["exec"] + [s.binary] == ["exec", s.binary];
  }

  // ---- NUL ----

  predicate NulFree(s: Script) {
    NUL !in s.binary && forall i :: 0 <= i < |s.args| ==> NUL !in s.args[i]
  }

  lemma {:induction false} NulInQuoted(x: string)
    ensures NUL in Escaped(x) <==> NUL in x
  {
    if x != "" {
      NulInQuoted(x[1..]);
      assert x == [x[0]] + x[1..];
    }
  }

  lemma {:induction false} NulInArgs(args: seq<string>)
    ensures NUL in ArgLines(args) <==> exists i :: 0 <= i < |args| && NUL in args[i]
  {
    if args != [] {
      NulInQuoted(args[0]);
      NulInArgs(args[1..]);
      assert forall i :: 0 < i < |args| ==> args[i] == args[1..][i - 1];
    }
  }

  lemma NulInConcat(a: string, b: string)
    ensures NUL in a + b <==> NUL in a || NUL in b
  {}

  lemma NulInCommand(s: Script)
    ensures NUL in ExecCommand(s) <==> !NulFree(s)
  {
    NulInQuoted(s.binary);
    NulInArgs(s.args);
    NulInConcat(ExecLine(s.binary), ArgLines(s.args));
  }

  /**
   A shell reads the launcher's exec command as exec, the binary and each argument, nothing more and
   nothing after it, exactly when none of them holds a NUL; without arguments too.
   */
  lemma ReadsAsWritten(s: Script)
    ensures FirstCommand(ExecCommand(s)) == Some(Command(["exec", s.binary] + s.args, "")) <==> NulFree(s)
  {
    NulInCommand(s);
    ScanCommand(s);
  }
}
