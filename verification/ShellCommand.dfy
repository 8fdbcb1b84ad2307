/**
 Shell command lines: the simplified tokenizer of the command classifier, the three
 printers of shell words, and the unwrapping of `bash -lc <command>` (quoting follows the
 POSIX Shell Command Language, section 2.2).
 */
module ShellCommand {
  import opened Options
  import opened DocText

  datatype Token = Token(value: string, dynamic: bool)

  datatype Reason = Empty | UnsupportedTool | ComplexShell | WriteOrMutation | NoExplicitPath | DynamicPath

  datatype Tokenized = Tokens(tokens: seq<Token>) | Refused(reason: Reason)

  // ---------------------------------------------------------------- the tokenizer

  /** The tokenizer between two characters; `quote` is the quoting character it is inside of. */
  datatype Lexer = Lexer(tokens: seq<Token>, value: string, dynamic: bool, quote: Option<char>) {
    function Flushed(): Lexer {
      if value == "" then this else Lexer(tokens + [Token(value, dynamic)], "", false, quote)
    }

    function Taking(c: char, makesDynamic: bool): Lexer {
      this.(value := value + [c], dynamic := dynamic || makesDynamic)
    }

    function Finished(): Tokenized {
      if quote.Some? then Refused(ComplexShell)
      else if Flushed().tokens == [] then Refused(Empty)
      else Tokens(Flushed().tokens)
    }
  }

  datatype Advance = Stay(lexer: Lexer, used: nat) | Give(reason: Reason)

  predicate Operator(c: char) {
    c in {'|', ';', '&', '>', '<', '\n', '\r'}
  }

  predicate Expands(c: char) {
    c == '$' || c == '`'
  }

  /** A backslash takes the next character literally. */
  function Escape(s: string, x: Lexer): Advance
    requires s != ""
  {
    if |s| == 1 then Give(ComplexShell) else Stay(x.Taking(s[1], false), 2)
  }

  /** One turn of the loop, on the rest of the command. */
  function Turn(s: string, x: Lexer): (a: Advance)
    requires s != ""
    ensures a.Stay? ==> 0 < a.used <= |s|
  {
    var c := s[0];
    if x.quote == Some('\'') then Stay(if c == '\'' then x.(quote := None) else x.Taking(c, false), 1)
    else if x.quote.Some? then
      if c == '"' then Stay(x.(quote := None), 1)
      else if c == '\\' then Escape(s, x)
      else Stay(x.Taking(c, Expands(c)), 1)
    else if IsSpace(c) then Stay(x.Flushed(), 1)
    else if c == '\'' || c == '"' then Stay(x.(quote := Some(c)), 1)
    else if c == '#' && x.value == "" then Give(ComplexShell)
    else if c == '\\' then Escape(s, x)
    else if Operator(c) then Give(ComplexShell)
    else Stay(x.Taking(c, Expands(c)), 1)
  }

  function Lex(s: string, x: Lexer): Tokenized
    decreases |s|
  {
    if s == "" then x.Finished()
    else match Turn(s, x)
      case Give(reason) => Refused(reason)
      case Stay(y, used) => Lex(s[used..], y)
  }

  const START: Lexer := Lexer([], "", false, None)

  predicate Blank(s: string) {
    forall i :: 0 <= i < |s| ==> IsSpace(s[i])
  }

  function Tokenize(command: string): Tokenized {
    if Blank(command) then Refused(Empty) else Lex(command, START)
  }

  method TokenizeSimpleShell(command: string) returns (r: Tokenized)
    ensures r == Tokenize(command)
  {
    if Blank(command) {
      return Refused(Empty);
    }
    var x := START;
    var i := 0;
    assert command[0..] == command;
    while i < |command|
      invariant 0 <= i <= |command|
      invariant Lex(command[i..], x) == Lex(command, START)
    {
      var c := command[i];
      assert command[i..][1..] == command[i + 1..];
      assert |command[i..]| > 1 ==> command[i..][2..] == command[i + 2..] && command[i..][1] == command[i + 1];
      if x.quote == Some('\'') {
        x := if c == '\'' then x.(quote := None) else x.Taking(c, false);
        i := i + 1;
        continue;
      }
      if x.quote.Some? {
        if c == '"' {
          x := x.(quote := None);
        } else if c == '\\' {
          if i + 1 == |command| {
            return Refused(ComplexShell);
          }
          x := x.Taking(command[i + 1], false);
          i := i + 1;
        } else {
          x := x.Taking(c, Expands(c));
        }
        i := i + 1;
        continue;
      }
      if IsSpace(c) {
        x := x.Flushed();
      } else if c == '\'' || c == '"' {
        x := x.(quote := Some(c));
      } else if c == '#' && x.value == "" {
        return Refused(ComplexShell);
      } else if c == '\\' {
        if i + 1 == |command| {
          return Refused(ComplexShell);
        }
        x := x.Taking(command[i + 1], false);
        i := i + 1;
      } else if Operator(c) {
        return Refused(ComplexShell);
      } else {
        x := x.Taking(c, Expands(c));
      }
      i := i + 1;
    }
    r := x.Finished();
  }

  // ---------------------------------------------------------------- the printers

  /** quotePosixShellArg, shellQuote and shellArg. */
  datatype Printer = PosixQuote | ConnectQuote | ConnectArg

  datatype Word = Word(printer: Printer, value: string)

  function ReplaceQuotes(value: string, with: string): string {
    if value == "" then "" else (if value[0] == '\'' then with else [value[0]]) + ReplaceQuotes(value[1..], with)
  }

  function QuotePosixShellArg(value: string): string {
    "'" + ReplaceQuotes(value, "'\"'\"'") + "'"
  }

  function ShellQuote(value: string): string {
    "'" + ReplaceQuotes(value, "'\\''") + "'"
  }

  predicate SafeChar(c: char) {
    'A' <= c <= 'Z' || 'a' <= c <= 'z' || '0' <= c <= '9' || c in {'_', '@', '%', '+', '=', ':', ',', '.', '/', '-'}
  }

  predicate Safe(value: string) {
    value != "" && forall i :: 0 <= i < |value| ==> SafeChar(value[i])
  }

  function Print(w: Word): string {
    match w.printer
    case PosixQuote => QuotePosixShellArg(w.value)
    case ConnectQuote => ShellQuote(w.value)
    case ConnectArg => if Safe(w.value) then w.value else ShellQuote(w.value)
  }

  /** Words separated by single spaces. */
  function Join(words: seq<Word>): string {
    if words == [] then ""
    else if |words| == 1 then Print(words[0])
    else Print(words[0]) + " " + Join(words[1..])
  }

  // ---------------------------------------------------------------- the round trip

  /** The lexer, outside quotes, with a literal text appended to the word at hand. */
  function Holding(x: Lexer, v: string): Lexer {
    x.(value := x.value + v)
  }

  /** A character that means nothing to the lexer where it is. */
  predicate Plain(c: char, x: Lexer) {
    if x.quote == Some('\'') then c != '\'' else x.quote == None && SafeChar(c)
  }

  lemma LexPlain(c: char, rest: string, x: Lexer)
    requires Plain(c, x)
    ensures Lex([c] + rest, x) == Lex(rest, Holding(x, [c]))
  {
    assert ([c] + rest)[1..] == rest;
  }

  lemma HoldingMore(x: Lexer, c: char, v: string)
    ensures Holding(Holding(x, [c]), v) == Holding(x, [c] + v)
  {
    assert x.value + [c] + v == x.value + ([c] + v);
  }

  /** Inside single quotes a replaced text, up to the closing quote, is read back literally. */
  lemma {:induction false} LexReplaced(v: string, with: string, rest: string, x: Lexer)
    requires x.quote == Some('\'') && with in {"'\"'\"'", "'\\''"}
    ensures Lex(ReplaceQuotes(v, with) + "'" + rest, x) == Lex(rest, Holding(x, v).(quote := None))
    decreases |v|
  {
    if v == "" {
      assert ("'" + rest)[1..] == rest;
      assert ReplaceQuotes(v, with) + "'" + rest == "'" + rest;
      assert Holding(x, v) == x;
    } else {
      var head := if v[0] == '\'' then with else [v[0]];
      var tail := ReplaceQuotes(v[1..], with) + "'" + rest;
      assert ReplaceQuotes(v, with) + "'" + rest == head + tail;
      hide Lex, ReplaceQuotes;
      if v[0] == '\'' {
        LexQuoteMark(with, tail, x);
      } else {
        LexPlain(v[0], tail, x);
      }
      LexReplaced(v[1..], with, rest, Holding(x, [v[0]]));
      assert [v[0]] + v[1..] == v;
      HoldingMore(x, v[0], v[1..]);
    }
  }

  /** Both spellings of a quote mark leave the quotes, take one quote mark, and enter them again. */
  lemma LexQuoteMark(with: string, tail: string, x: Lexer)
    requires x.quote == Some('\'') && with in {"'\"'\"'", "'\\''"}
    ensures Lex(with + tail, x) == Lex(tail, Holding(x, "'"))
  {
    var s := with + tail;
    var out := x.(quote := None);
    var s1 := s[1..];
    assert Lex(s, x) == Lex(s1, out);
    if with == "'\\''" {
      var s2 := s1[2..];
      assert s1[0] == '\\' && s1[1] == '\'';
      assert Lex(s1, out) == Lex(s2, out.Taking('\'', false));
      assert s2[0] == '\'' && s2[1..] == tail;
    } else {
      var s2, s3, s4 := s1[1..], s1[1..][1..], s1[1..][1..][1..];
      assert s1[0] == '"' && s2[0] == '\'' && s3[0] == '"' && s4[0] == '\'' && s4[1..] == tail;
      assert Lex(s1, out) == Lex(s2, out.(quote := Some('"')));
      assert Lex(s2, out.(quote := Some('"'))) == Lex(s3, out.(quote := Some('"')).Taking('\'', false));
      assert Lex(s3, out.(quote := Some('"')).Taking('\'', false)) == Lex(s4, out.Taking('\'', false));
    }
  }

  lemma {:induction false} LexSafe(v: string, rest: string, x: Lexer)
    requires x.quote == None && forall i :: 0 <= i < |v| ==> SafeChar(v[i])
    ensures Lex(v + rest, x) == Lex(rest, Holding(x, v))
    decreases |v|
  {
    if v == "" {
      assert v + rest == rest && Holding(x, v) == x;
    } else {
      hide Lex;
      assert v + rest == [v[0]] + (v[1..] + rest);
      LexPlain(v[0], v[1..] + rest, x);
      LexSafe(v[1..], rest, Holding(x, [v[0]]));
      assert [v[0]] + v[1..] == v;
      HoldingMore(x, v[0], v[1..]);
    }
  }

  /** A printed word is read back literally, whatever it contains. */
  lemma LexPrinted(w: Word, rest: string, x: Lexer)
    requires x.quote == None
    ensures Lex(Print(w) + rest, x) == Lex(rest, Holding(x, w.value))
  {
    if w.printer.ConnectArg? && Safe(w.value) {
      LexSafe(w.value, rest, x);
    } else {
      var with := if w.printer.PosixQuote? then "'\"'\"'" else "'\\''";
      var body := ReplaceQuotes(w.value, with) + "'" + rest;
      assert Print(w) + rest == "'" + body;
      assert ("'" + body)[1..] == body;
      LexReplaced(w.value, with, rest, x.(quote := Some('\'')));
    }
  }

  function OneLiteral(w: Word): seq<Token> {
    if w.value == "" then [] else [Token(w.value, false)]
  }

  /** The values of the words, without the empty ones, none of them dynamic. */
  function Literal(words: seq<Word>): seq<Token> {
    if words == [] then [] else OneLiteral(words[0]) + Literal(words[1..])
  }

  /** A space ends the word. */
  lemma LexSpace(s: string, x: Lexer)
    requires x.quote == None
    ensures Lex(" " + s, x) == Lex(s, x.Flushed())
  {
    assert (" " + s)[1..] == s;
  }

  /** The lexer after a whole word. */
  function Gained(x: Lexer, w: Word): Lexer {
    x.(tokens := x.tokens + OneLiteral(w))
  }

  lemma FlushedGained(x: Lexer, w: Word)
    requires x.quote == None && x.value == "" && !x.dynamic
    ensures Holding(x, w.value).Flushed() == Gained(x, w)
  {
    assert Holding(x, w.value) == x.(value := w.value);
    assert x.tokens + [] == x.tokens;
  }

  lemma LexLast(w: Word, x: Lexer)
    requires x.quote == None && x.value == "" && !x.dynamic
    ensures Lex(Print(w), x) == Gained(x, w).Finished()
  {
    assert Print(w) + "" == Print(w);
    LexPrinted(w, "", x);
    FlushedGained(x, w);
  }

  lemma LexNext(w: Word, rest: string, x: Lexer)
    requires x.quote == None && x.value == "" && !x.dynamic
    ensures Lex(Print(w) + " " + rest, x) == Lex(rest, Gained(x, w))
  {
    assert Print(w) + " " + rest == Print(w) + (" " + rest);
    LexPrinted(w, " " + rest, x);
    LexSpace(rest, Holding(x, w.value));
    FlushedGained(x, w);
  }

  lemma {:induction false} LexJoined(words: seq<Word>, x: Lexer)
    requires words != [] && x.quote == None && x.value == "" && !x.dynamic
    ensures Lex(Join(words), x) == x.(tokens := x.tokens + Literal(words)).Finished()
    decreases |words|
  {
    if |words| == 1 {
      LexLast(words[0], x);
      assert words[1..] == [] && OneLiteral(words[0]) + [] == OneLiteral(words[0]);
    } else {
      LexNext(words[0], Join(words[1..]), x);
      LexJoined(words[1..], Gained(x, words[0]));
      GainedRest(words, x);
      hide Lex, Print, Literal;
    }
  }

  lemma GainedRest(words: seq<Word>, x: Lexer)
    requires words != []
    ensures Gained(x, words[0]).tokens + Literal(words[1..]) == x.tokens + Literal(words)
  {
    var t, a, b := x.tokens, OneLiteral(words[0]), Literal(words[1..]);
    assert t + a + b == t + (a + b);
  }

  lemma PrintedNotBlank(words: seq<Word>)
    requires words != []
    ensures !Blank(Join(words))
  {
    var p := Print(words[0]);
    assert Join(words)[0] == p[0];
    assert !IsSpace(p[0]);
  }

  /** Any list of words, each printed by any of the three printers and joined by spaces, tokenizes
      to exactly the non-empty ones, in order, none of them dynamic. */
  lemma TokenizePrinted(words: seq<Word>)
    ensures Tokenize(Join(words)) == if Literal(words) == [] then Refused(Empty) else Tokens(Literal(words))
  {
    if words != [] {
      PrintedNotBlank(words);
      LexJoined(words, START);
      assert START.tokens + Literal(words) == Literal(words);
    }
  }

  lemma {:induction false} LiteralAll(words: seq<Word>)
    ensures |Literal(words)| <= |words|
    ensures |Literal(words)| == |words| <==> forall i :: 0 <= i < |words| ==> words[i].value != ""
    ensures (forall i :: 0 <= i < |words| ==> words[i].value != "") ==>
              forall i :: 0 <= i < |words| ==> Literal(words)[i] == Token(words[i].value, false)
    decreases |words|
  {
    if words != [] {
      LiteralAll(words[1..]);
      if forall i :: 0 <= i < |words| ==> words[i].value != "" {
        forall i | 0 <= i < |words| ensures Literal(words)[i] == Token(words[i].value, false) {
        }
      } else if forall i :: 0 <= i < |words| - 1 ==> words[1..][i].value != "" {
        assert words[0].value == "";
      }
    }
  }

  /** The round trip gives the words back exactly if there are some and none is empty. */
  lemma RoundTripExactly(words: seq<Word>)
    ensures Tokenize(Join(words)) == Tokens(seq(|words|, i requires 0 <= i < |words| => Token(words[i].value, false)))
            <==> words != [] && forall i :: 0 <= i < |words| ==> words[i].value != ""
  {
    TokenizePrinted(words);
    LiteralAll(words);
    var all := seq(|words|, i requires 0 <= i < |words| => Token(words[i].value, false));
    if forall i :: 0 <= i < |words| ==> words[i].value != "" {
      assert Literal(words) == all;
    }
  }

  // ---------------------------------------------------------------- shell wrappers

  datatype PathHint = File | Directory | Unknown
  datatype PathArg = PathArg(raw: string, hint: PathHint)

  datatype Classification =
    Read(commandName: string, pathArgs: seq<PathArg>) | Unsupported(reason: Reason, commandName: string)

  const MAX_WRAPPER_UNWRAPS: nat := 2

  const SHELLS: set<string> := {"sh", "bash", "zsh"}
  const SHELL_FLAGS: set<string> := {"-c", "-lc"}

  const MUTATING_OR_AMBIGUOUS_TOOLS: set<string> := {
    "awk", "bash", "chmod", "chown", "cp", "dd", "echo", "install", "mkdir", "mv", "node", "perl", "printf",
    "python", "python3", "rm", "rmdir", "sed-i", "sh", "tee", "touch", "truncate", "xargs", "zsh"}

  function Lower(c: char): char {
    if 'A' <= c <= 'Z' then 'a' + (c - 'A') else c
  }

  /** The last non-empty part between slashes and backslashes, in lower case; `part` is the one being
      read and `last` the last one that was complete. */
  function LastPart(value: string, last: string, part: string): string {
    if value == "" then (if part == "" then last else part)
    else if value[0] == '/' || value[0] == '\\' then LastPart(value[1..], if part == "" then last else part, "")
    else LastPart(value[1..], last, part + [Lower(value[0])])
  }

  /** commandBasename; a value of slashes alone stands for itself. */
  function CommandBasename(value: string): string {
    var name := LastPart(value, "", "");
    if name == "" then seq(|value|, i => '/') else name
  }

  /** The inner command of `<shell> -c <command>`, if the tokens are one. */
  function Inner(tokens: seq<Token>): Option<string> {
    if |tokens| >= 3 && CommandBasename(tokens[0].value) in SHELLS && tokens[1].value in SHELL_FLAGS
       && tokens[2].value != "" && !tokens[2].dynamic
    then Some(tokens[2].value) else None
  }

  /** classifyShellCommandIoInternal; `tools` classifies by command name once wrappers are gone. */
  function Classify(command: string, depth: nat, tools: (string, seq<Token>) -> Classification): Classification
    decreases MAX_WRAPPER_UNWRAPS - depth
  {
    match Tokenize(command)
    case Refused(reason) => Unsupported(reason, "")
    case Tokens(tokens) =>
      if tokens == [] then Unsupported(Empty, "")
      else if tokens[0].dynamic then Unsupported(DynamicPath, "")
      else
        var name := CommandBasename(tokens[0].value);
        if depth < MAX_WRAPPER_UNWRAPS && Inner(tokens).Some? then Classify(Inner(tokens).value, depth + 1, tools)
        else if name in MUTATING_OR_AMBIGUOUS_TOOLS then Unsupported(WriteOrMutation, name)
        else tools(name, tokens)
  }

  /** stripShellCommandDisplayWrapper. */
  function StripDisplayWrapper(command: string): string {
    match Tokenize(command)
    case Refused(_) => command
    case Tokens(tokens) =>
      if tokens == [] || tokens[0].dynamic then command
      else match Inner(tokens) case None => command case Some(inner) => inner
  }

  /** One wrapper: a shell, one of its flags, and perhaps words after the command. */
  datatype Wrapper = Wrapper(shell: Word, flag: Word, printer: Printer, more: seq<Word>)

  predicate Wraps(w: Wrapper) {
    w.shell.value != "" && CommandBasename(w.shell.value) in SHELLS && w.flag.value in SHELL_FLAGS
  }

  function Wrap(w: Wrapper, command: string): string {
    Join([w.shell, w.flag, Word(w.printer, command)] + w.more)
  }

  /** The layers around a command, the outermost first. */
  function WrapAll(ws: seq<Wrapper>, command: string): string {
    if ws == [] then command else Wrap(ws[0], WrapAll(ws[1..], command))
  }

  predicate IsWrapped(command: string) {
    var t := Tokenize(command);
    t.Tokens? && t.tokens != [] && !t.tokens[0].dynamic && Inner(t.tokens).Some?
  }

  /** A wrapper tokenizes to its shell, its flag, and the command as one token. */
  lemma WrapTokens(w: Wrapper, command: string)
    requires Wraps(w) && command != ""
    ensures Tokenize(Wrap(w, command))
            == Tokens([Token(w.shell.value, false), Token(w.flag.value, false), Token(command, false)]
              + Literal(w.more))
    ensures Tokenize(Wrap(w, command)).tokens[0] == Token(w.shell.value, false)
    ensures Inner(Tokenize(Wrap(w, command)).tokens) == Some(command)
  {
    var words := [w.shell, w.flag, Word(w.printer, command)] + w.more;
    var head := [Token(w.shell.value, false), Token(w.flag.value, false), Token(command, false)];
    assert w.flag.value != "";
    assert words[1..] == [w.flag, Word(w.printer, command)] + w.more;
    assert words[1..][1..] == [Word(w.printer, command)] + w.more;
    assert words[1..][1..][1..] == w.more;
    assert Literal(words[1..][1..]) == [head[2]] + Literal(w.more);
    assert Literal(words[1..]) == [head[1]] + ([head[2]] + Literal(w.more));
    assert Literal(words) == head + Literal(w.more);
    TokenizePrinted(words);
  }

  /** Stripping the wrapper for display gives the command back. */
  lemma StripWrap(w: Wrapper, command: string)
    requires Wraps(w) && command != ""
    ensures StripDisplayWrapper(Wrap(w, command)) == command
  {
    WrapTokens(w, command);
  }

  lemma WrapNotEmpty(w: Wrapper, command: string)
    ensures Wrap(w, command) != ""
  {
    PrintedNotBlank([w.shell, w.flag, Word(w.printer, command)] + w.more);
  }

  /** The depth does not matter to a command that is not a wrapper. */
  lemma DepthFree(command: string, d: nat, tools: (string, seq<Token>) -> Classification)
    requires !IsWrapped(command)
    ensures Classify(command, d, tools) == Classify(command, 0, tools)
  {
  }

  /** A wrapper is looked through below the bound, and refused as a mutation at it. */
  lemma WrapClassified(w: Wrapper, command: string, d: nat, tools: (string, seq<Token>) -> Classification)
    requires Wraps(w) && command != ""
    ensures d < MAX_WRAPPER_UNWRAPS ==> Classify(Wrap(w, command), d, tools) == Classify(command, d + 1, tools)
    ensures d >= MAX_WRAPPER_UNWRAPS ==>
              Classify(Wrap(w, command), d, tools) == Unsupported(WriteOrMutation, CommandBasename(w.shell.value))
  {
    WrapTokens(w, command);
  }

  predicate IsMutation(c: Classification) {
    c.Unsupported? && c.reason == WriteOrMutation
  }

  /** Up to two wrappers around a command that is not one leave its classification unchanged;
      three or more, whatever is inside, are a mutation. */
  lemma WrappersUnchanged(ws: seq<Wrapper>, command: string, tools: (string, seq<Token>) -> Classification)
    requires command != "" && forall i :: 0 <= i < |ws| ==> Wraps(ws[i])
    ensures |ws| <= 2 && !IsWrapped(command) ==> Classify(WrapAll(ws, command), 0, tools) == Classify(command, 0, tools)
    ensures |ws| > 2 ==> IsMutation(Classify(WrapAll(ws, command), 0, tools))
  {
    if ws != [] {
      LayersClassified(ws, command, 0, tools);
      if |ws| <= 2 && !IsWrapped(command) {
        DepthFree(command, |ws|, tools);
      }
    }
  }

  /** From depth d each layer costs one level, until the bound is reached. */
  lemma {:induction false} LayersClassified(ws: seq<Wrapper>, command: string, d: nat,
      tools: (string, seq<Token>) -> Classification)
    requires ws != [] && command != "" && d <= MAX_WRAPPER_UNWRAPS && forall i :: 0 <= i < |ws| ==> Wraps(ws[i])
    ensures d + |ws| <= MAX_WRAPPER_UNWRAPS ==>
              Classify(WrapAll(ws, command), d, tools) == Classify(command, d + |ws|, tools)
    ensures d + |ws| > MAX_WRAPPER_UNWRAPS ==> IsMutation(Classify(WrapAll(ws, command), d, tools))
    decreases |ws|
  {
    hide WrapAll, Wrap, Tokenize, Wraps, Classify, CommandBasename;
    var rest := ws[1..];
    var inner := WrapAll(rest, command);
    OuterLayer(ws, command);
    WrapClassified(ws[0], inner, d, tools);
    if rest != [] && d < MAX_WRAPPER_UNWRAPS {
      LayersClassified(rest, command, d + 1, tools);
    }
  }

  lemma OuterLayer(ws: seq<Wrapper>, command: string)
    requires ws != [] && command != ""
    ensures WrapAll(ws[1..], command) != "" && WrapAll(ws, command) == Wrap(ws[0], WrapAll(ws[1..], command))
    ensures |ws| == 1 ==> WrapAll(ws[1..], command) == command
  {
    hide Wrap;
    if |ws| > 1 {
      WrapNotEmpty(ws[1], WrapAll(ws[1..][1..], command));
    }
  }
}
