/**
  Printers of offveil-core/internal/appservice/launchd.go together with the parsers
  that read their output: the AppleScript string literal, the quoting part of the
  POSIX Shell Command Language (sections 2.2.1 to 2.2.3) and a sudoers command list.
 */
module Quoting {
  import opened Options

  // ---------------------------------------------------------------- printers

  /** Go's strings.ReplaceAll for a pattern of one character. */
  function ReplaceChar(s: string, c: char, with: string): string {
    if s == "" then "" else (if s[0] == c then with else [s[0]]) + ReplaceChar(s[1..], c, with)
  }

  const ESCAPED_QUOTE: string := "'\"'\"'"

  function ShQuote(s: string): string {
    "'" + ReplaceChar(s, '\'', ESCAPED_QUOTE) + "'"
  }

  function AsBody(s: string): string {
    ReplaceChar(ReplaceChar(s, '\\', "\\\\"), '"', "\\\"")
  }

  function AsQuote(s: string): string {
    "\"" + AsBody(s) + "\""
  }

  const USER_ASSIGNMENT: string := "OFFVEIL_SETUP_USER="
  const SCRIPT_HEAD: string := "do shell script "
  const SCRIPT_TAIL: string := " with administrator privileges"

  function ShellLine(exe: string, user: string, action: string): string {
    USER_ASSIGNMENT + (ShQuote(user) + (" " + (ShQuote(exe) + (" " + ShQuote(action)))))
  }

  function ElevateScript(exe: string, user: string, action: string): string {
    SCRIPT_HEAD + AsQuote(ShellLine(exe, user, action)) + SCRIPT_TAIL
  }

  predicate SudoersDelimiter(c: char) {
    c == ' ' || c == ',' || c == ':' || c == '='
  }

  /** strings.NewReplacer scans once, so every character is replaced on its own. */
  function SudoersEscape(path: string): string {
    if path == "" then ""
    else (if SudoersDelimiter(path[0]) || path[0] == '\\' then ['\\', path[0]] else [path[0]]) + SudoersEscape(path[1..])
  }

  function SudoersCommands(exe: string): string {
    SudoersEscape(exe) + (" start, " + (SudoersEscape(exe) + " stop"))
  }

  // ----------------------------------------------------------------- parsers

  function AppleEscape(c: char): Option<char> {
    match c
    case '\\' => Some('\\')
    case '"' => Some('"')
    case 'n' => Some('\n')
    case 'r' => Some('\r')
    case 't' => Some('\t')
    case _ => None
  }

  function Prepend(c: char, r: Option<(string, string)>): Option<(string, string)> {
    match r
    case None => None
    case Some((body, rest)) => Some(([c] + body, rest))
  }

  /** Reads an AppleScript literal after its opening quote: its value and the text after the closing quote. */
  function ReadLiteral(s: string): Option<(string, string)> {
    if s == "" then None
    else if s[0] == '"' then Some(("", s[1..]))
    else if s[0] != '\\' then Prepend(s[0], ReadLiteral(s[1..]))
    else if |s| == 1 then None
    else match AppleEscape(s[1])
      case None => None
      case Some(c) => Prepend(c, ReadLiteral(s[2..]))
  }

  datatype Mode = Bare | Single | Double

  predicate ShellSpecial(c: char) {
    c in "|&;<>()$`\n*?[#~"
  }

  function Extend(word: Option<string>, text: string): Option<string> {
    match word
    case None => Some(text)
    case Some(w) => Some(w + text)
  }

  function Finish(word: Option<string>, words: Option<seq<string>>): Option<seq<string>> {
    match (word, words)
    case (Some(w), Some(ws)) => Some([w] + ws)
    case _ => words
  }

  /**
    Splits a simple command into words, removing quotes. The result is None for an
    unterminated quote, an expansion or an unquoted operator character.
   */
  function Words(s: string, mode: Mode, word: Option<string>): Option<seq<string>> {
    if s == "" then
      if mode == Bare then Finish(word, Some([])) else None
    else match mode
      case Single =>
        if s[0] == '\'' then Words(s[1..], Bare, word) else Words(s[1..], Single, Extend(word, [s[0]]))
      case Double =>
        if s[0] == '"' then Words(s[1..], Bare, word)
        else if s[0] == '$' || s[0] == '`' then None
        else if s[0] == '\\' && |s| > 1 && s[1] in "$`\"\\" then Words(s[2..], Double, Extend(word, [s[1]]))
        else if s[0] == '\\' && |s| > 1 && s[1] == '\n' then Words(s[2..], Double, word)
        else Words(s[1..], Double, Extend(word, [s[0]]))
      case Bare =>
        if s[0] == ' ' || s[0] == '\t' then Finish(word, Words(s[1..], Bare, None))
        else if s[0] == '\'' then Words(s[1..], Single, Extend(word, ""))
        else if s[0] == '"' then Words(s[1..], Double, Extend(word, ""))
        else if s[0] == '\\' then
          if |s| == 1 then None
          else if s[1] == '\n' then Words(s[2..], Bare, word)
          else Words(s[2..], Bare, Extend(word, [s[1]]))
        else if ShellSpecial(s[0]) then None
        else Words(s[1..], Bare, Extend(word, [s[0]]))
  }

  /** What osascript runs: the words of the shell command inside a "do shell script" statement. */
  function ParseScript(script: string): Option<seq<string>> {
    var open := SCRIPT_HEAD + "\"";
    if !(open <= script) then None
    else match ReadLiteral(script[|open|..])
      case None => None
      case Some((command, rest)) => if rest == SCRIPT_TAIL then Words(command, Bare, None) else None
  }

  function SudoersUnescape(s: string): string {
    if s == "" then ""
    else if s[0] == '\\' && |s| > 1 then [s[1]] + SudoersUnescape(s[2..])
    else [s[0]] + SudoersUnescape(s[1..])
  }

  predicate NoBareDelimiter(s: string) {
    s == "" ||
    if s[0] == '\\' then |s| > 1 && NoBareDelimiter(s[2..])
    else !SudoersDelimiter(s[0]) && NoBareDelimiter(s[1..])
  }

  function Finish2(words: seq<string>, rest: Option<seq<seq<string>>>): Option<seq<seq<string>>> {
    match rest
    case None => None
    case Some(cs) => Some([words] + cs)
  }

  function Close(words: seq<string>, word: Option<string>): seq<string> {
    match word
    case None => words
    case Some(w) => words + [w]
  }

  /** Splits a sudoers command list at bare commas, and each command at bare spaces. */
  function CommandList(s: string, words: seq<string>, word: Option<string>): Option<seq<seq<string>>> {
    if s == "" then Some([Close(words, word)])
    else if s[0] == '\\' then
      if |s| == 1 then None else CommandList(s[2..], words, Extend(word, [s[1]]))
    else if s[0] == ',' then Finish2(Close(words, word), CommandList(s[1..], [], None))
    else if s[0] == ' ' then CommandList(s[1..], Close(words, word), None)
    else if SudoersDelimiter(s[0]) then None
    else CommandList(s[1..], words, Extend(word, [s[0]]))
  }

  // ------------------------------------------------------------------ proofs

  lemma {:induction false} ReplaceCharCons(c: char, s: string, p: char, with: string)
    ensures ReplaceChar([c] + s, p, with) == (if c == p then with else [c]) + ReplaceChar(s, p, with)
  {
    assert ([c] + s)[1..] == s;
  }

  lemma {:induction false} AsBodyCons(c: char, s: string)
    ensures AsBody([c] + s) == (if c == '\\' || c == '"' then ['\\', c] else [c]) + AsBody(s)
  {
    ReplaceCharCons(c, s, '\\', "\\\\");
    var inner := ReplaceChar(s, '\\', "\\\\");
    if c == '\\' {
      assert "\\\\" + inner == ['\\'] + (['\\'] + inner);
      ReplaceCharCons('\\', ['\\'] + inner, '"', "\\\"");
      ReplaceCharCons('\\', inner, '"', "\\\"");
      assert ['\\'] + (['\\'] + AsBody(s)) == ['\\', c] + AsBody(s);
    } else {
      ReplaceCharCons(c, inner, '"', "\\\"");
    }
  }

  /** Reading an AppleScript literal gives back the string that was quoted, whatever follows it. */
  lemma {:induction false} LiteralRoundTrip(s: string, rest: string)
    ensures ReadLiteral(AsBody(s) + "\"" + rest) == Some((s, rest))
  {
    if s == "" {
      assert AsBody(s) + "\"" + rest == ['"'] + rest;
    } else {
      var tail := AsBody(s[1..]) + "\"" + rest;
      LiteralRoundTrip(s[1..], rest);
      assert s == [s[0]] + s[1..];
      AsBodyCons(s[0], s[1..]);
      if s[0] == '\\' || s[0] == '"' {
        var text := ['\\', s[0]] + tail;
        assert AsBody(s) + "\"" + rest == text;
        assert text[2..] == tail;
      } else {
        var text := [s[0]] + tail;
        assert AsBody(s) + "\"" + rest == text;
        assert text[1..] == tail;
      }
    }
  }

  /** The five-character escape of a quote leaves single-quote mode and comes back with that quote added. */
  lemma QuoteEscape(rest: string, w: string)
    ensures Words(ESCAPED_QUOTE + rest, Single, Some(w)) == Words(rest, Single, Some(w + "'"))
  {
    var t0 := ESCAPED_QUOTE + rest;
    var t1 := "\"'\"'" + rest;
    var t2 := "'\"'" + rest;
    var t3 := "\"'" + rest;
    var t4 := "'" + rest;
    assert t0[1..] == t1 && t1[1..] == t2 && t2[1..] == t3 && t3[1..] == t4 && t4[1..] == rest;
    assert w + "" == w;
    var q := w + "'";
    assert q + "" == q;
    assert Words(t0, Single, Some(w)) == Words(t1, Bare, Some(w));
    assert Words(t1, Bare, Some(w)) == Words(t2, Double, Some(w));
    assert Words(t2, Double, Some(w)) == Words(t3, Double, Some(q));
    assert Words(t3, Double, Some(q)) == Words(t4, Bare, Some(q));
    assert Words(t4, Bare, Some(q)) == Words(rest, Single, Some(q));
  }

  lemma {:induction false} SingleQuotedRun(v: string, rest: string, w: string)
    ensures Words(ReplaceChar(v, '\'', ESCAPED_QUOTE) + "'" + rest, Single, Some(w)) == Words(rest, Bare, Some(w + v))
  {
    if v == "" {
      assert ReplaceChar(v, '\'', ESCAPED_QUOTE) + "'" + rest == ['\''] + rest;
      assert w + v == w;
    } else {
      var tail := ReplaceChar(v[1..], '\'', ESCAPED_QUOTE) + "'" + rest;
      SingleQuotedRun(v[1..], rest, w + [v[0]]);
      assert w + v == w + [v[0]] + v[1..];
      if v[0] == '\'' {
        assert ReplaceChar(v, '\'', ESCAPED_QUOTE) + "'" + rest == ESCAPED_QUOTE + tail;
        QuoteEscape(tail, w);
      } else {
        var text := [v[0]] + tail;
        assert ReplaceChar(v, '\'', ESCAPED_QUOTE) + "'" + rest == text;
        assert text[1..] == tail;
      }
    }
  }

  /** A quoted string extends the current word by exactly the string, for every string. */
  lemma {:induction false} ShQuoteRead(v: string, rest: string, word: Option<string>)
    ensures Words(ShQuote(v) + rest, Bare, word) == Words(rest, Bare, Extend(word, v))
  {
    var text := ShQuote(v) + rest;
    var body := ReplaceChar(v, '\'', ESCAPED_QUOTE) + "'" + rest;
    assert text[1..] == body;
    var w := match word { case None => "" case Some(x) => x };
    assert w + "" == w;
    assert "" + v == v;
    SingleQuotedRun(v, rest, w);
  }

  lemma {:induction false} PlainRun(p: string, rest: string, w: string)
    requires forall i :: 0 <= i < |p| ==> !ShellSpecial(p[i]) && p[i] !in " \t'\"\\"
    ensures Words(p + rest, Bare, Some(w)) == Words(rest, Bare, Some(w + p))
  {
    if p == "" {
      assert p + rest == rest && w + p == w;
    } else {
      assert (p + rest)[1..] == p[1..] + rest;
      PlainRun(p[1..], rest, w + [p[0]]);
      assert w + p == w + [p[0]] + p[1..];
    }
  }

  lemma AssignmentRead(rest: string)
    ensures Words(USER_ASSIGNMENT + rest, Bare, None) == Words(rest, Bare, Some(USER_ASSIGNMENT))
  {
    var p := USER_ASSIGNMENT;
    assert (p + rest)[1..] == p[1..] + rest;
    assert p == ['O'] + p[1..];
    PlainRun(p[1..], rest, ['O']);
  }

  lemma SpaceRead(rest: string, w: string)
    ensures Words(" " + rest, Bare, Some(w)) == Finish(Some(w), Words(rest, Bare, None))
  {
    assert (" " + rest)[1..] == rest;
  }

  /** The shell sees exactly one assignment, the executable and the action, for all three strings. */
  lemma ShellLineRead(exe: string, user: string, action: string)
    ensures Words(ShellLine(exe, user, action), Bare, None) == Some([USER_ASSIGNMENT + user, exe, action])
  {
    var tail3 := ShQuote(action);
    var tail2 := ShQuote(exe) + (" " + tail3);
    var tail1 := ShQuote(user) + (" " + tail2);
    AssignmentRead(tail1);
    ShQuoteRead(user, " " + tail2, Some(USER_ASSIGNMENT));
    SpaceRead(tail2, USER_ASSIGNMENT + user);
    ShQuoteRead(exe, " " + tail3, None);
    SpaceRead(tail3, exe);
    ShQuoteRead(action, "", None);
    assert ShQuote(action) + "" == tail3;
    assert Words("", Bare, Some(action)) == Some([action] + []);
    assert [exe] + ([action] + []) == [exe, action];
    assert [USER_ASSIGNMENT + user] + [exe, action] == [USER_ASSIGNMENT + user, exe, action];
  }

  /** A script is its head, the literal and its tail; only the literal decides the words. */
  lemma {:induction false} ScriptRead(head: string, shell: string, tail: string)
    ensures var script := head + AsQuote(shell) + tail;
            && head + "\"" <= script
            && ReadLiteral(script[|head + "\""|..]) == Some((shell, tail))
  {
    var open := head + "\"";
    var body := AsBody(shell) + "\"" + tail;
    assert head + AsQuote(shell) + tail == open + body;
    assert (open + body)[|open|..] == body;
    LiteralRoundTrip(shell, tail);
  }

  /** Main result: the elevation script decodes to the three intended words. */
  lemma {:induction false} ElevateScriptRoundTrip(exe: string, user: string, action: string)
    ensures ParseScript(ElevateScript(exe, user, action)) == Some(["OFFVEIL_SETUP_USER=" + user, exe, action])
  {
    var shell := ShellLine(exe, user, action);
    ScriptRead(SCRIPT_HEAD, shell, SCRIPT_TAIL);
    ShellLineRead(exe, user, action);
  }

  lemma {:induction false} SudoersRoundTrip(path: string)
    ensures SudoersUnescape(SudoersEscape(path)) == path
    ensures NoBareDelimiter(SudoersEscape(path))
  {
    if path != "" {
      SudoersRoundTrip(path[1..]);
      var tail := SudoersEscape(path[1..]);
      var text := SudoersEscape(path);
      if SudoersDelimiter(path[0]) || path[0] == '\\' {
        assert text == ['\\', path[0]] + tail && text[2..] == tail;
      } else {
        assert text == [path[0]] + tail && text[1..] == tail;
      }
    }
  }

  lemma {:induction false} EscapedRun(path: string, rest: string, words: seq<string>, w: string)
    ensures CommandList(SudoersEscape(path) + rest, words, Some(w)) == CommandList(rest, words, Some(w + path))
  {
    if path == "" {
      assert SudoersEscape(path) + rest == rest && w + path == w;
    } else {
      var tail := SudoersEscape(path[1..]) + rest;
      EscapedRun(path[1..], rest, words, w + [path[0]]);
      assert w + path == w + [path[0]] + path[1..];
      if SudoersDelimiter(path[0]) || path[0] == '\\' {
        var text := ['\\', path[0]] + tail;
        assert SudoersEscape(path) + rest == text && text[2..] == tail;
      } else {
        var text := [path[0]] + tail;
        assert SudoersEscape(path) + rest == text && text[1..] == tail;
      }
    }
  }

  lemma {:induction false} EscapedWord(path: string, rest: string, words: seq<string>)
    requires path != ""
    ensures CommandList(SudoersEscape(path) + rest, words, None) == CommandList(rest, words, Some(path))
  {
    var tail := SudoersEscape(path[1..]) + rest;
    EscapedRun(path[1..], rest, words, [path[0]]);
    assert [path[0]] + path[1..] == path;
    if SudoersDelimiter(path[0]) || path[0] == '\\' {
      var text := ['\\', path[0]] + tail;
      assert SudoersEscape(path) + rest == text && text[2..] == tail;
    } else {
      var text := [path[0]] + tail;
      assert SudoersEscape(path) + rest == text && text[1..] == tail;
    }
  }

  lemma SubcommandWord(word: string, rest: string, words: seq<string>)
    requires word == "start" || word == "stop"
    ensures CommandList(word + rest, words, None) == CommandList(rest, words, Some(word))
  {
    assert SudoersEscape("start") == "start" by { SudoersPlain("start"); }
    assert SudoersEscape("stop") == "stop" by { SudoersPlain("stop"); }
    EscapedWord(word, rest, words);
  }

  lemma {:induction false} SudoersPlain(s: string)
    requires forall i :: 0 <= i < |s| ==> !SudoersDelimiter(s[i]) && s[i] != '\\'
    ensures SudoersEscape(s) == s
  {
    if s != "" {
      SudoersPlain(s[1..]);
      assert s == [s[0]] + s[1..];
    }
  }

  lemma SpaceEndsWord(rest: string, words: seq<string>, w: string)
    ensures CommandList(" " + rest, words, Some(w)) == CommandList(rest, words + [w], None)
  {
    assert (" " + rest)[1..] == rest;
  }

  lemma CommaEndsCommand(rest: string, words: seq<string>, w: string)
    ensures CommandList(", " + rest, words, Some(w)) == Finish2(words + [w], CommandList(rest, [], None))
  {
    assert (", " + rest)[1..] == " " + rest;
    assert (" " + rest)[1..] == rest;
    assert CommandList(" " + rest, [], None) == CommandList(rest, [], None);
  }

  /** The generated alias grants exactly "exe start" and "exe stop", for every path that is not empty. */
  lemma SudoersCommandsRead(exe: string)
    requires exe != ""
    ensures CommandList(SudoersCommands(exe), [], None) == Some([[exe, "start"], [exe, "stop"]])
  {
    var second := SudoersEscape(exe) + " stop";
    EscapedWord(exe, " start, " + second, []);
    assert " start, " + second == " " + ("start" + (", " + second));
    SpaceEndsWord("start" + (", " + second), [], exe);
    SubcommandWord("start", ", " + second, [exe]);
    CommaEndsCommand(second, [exe], "start");
    EscapedWord(exe, " stop", []);
    assert " stop" == " " + "stop" && "stop" == "stop" + "";
    SpaceEndsWord("stop", [], exe);
    SubcommandWord("stop", "", [exe]);
    assert [] + [exe] == [exe] && [exe] + ["start"] == [exe, "start"] && [exe] + ["stop"] == [exe, "stop"];
    assert CommandList("", [exe], Some("stop")) == Some([[exe, "stop"]]);
    assert [[exe, "start"]] + [[exe, "stop"]] == [[exe, "start"], [exe, "stop"]];
  }
}
