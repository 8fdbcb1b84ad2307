/**
 What the command tokenizer computes, told from the quoting of each single character: which commands it
 refuses, which words it finds, and which of them are dynamic.
 */
module ShellTokens {
  import opened DocText
  import opened ShellCommand
  import opened Options

  /** How a character is quoted, by what stands before it. */
  datatype Quoting = Unquoted | Single | Double | Escaped(within: Quoting)

  function Behind(q: Quoting, c: char): Quoting {
    match q
    case Escaped(within) => within
    case Single => if c == '\'' then Unquoted else Single
    case Double => if c == '"' then Unquoted else if c == '\\' then Escaped(Double) else Double
    case Unquoted => if c == '\'' then Single else if c == '"' then Double
                     else if c == '\\' then Escaped(Unquoted) else Unquoted
  }

  function At(s: string, i: nat): Quoting
    requires i <= |s|
  {
    if i == 0 then Unquoted else Behind(At(s, i - 1), s[i - 1])
  }

  /** White space that ends a word. */
  predicate Separates(s: string, i: nat)
    requires i < |s|
  {
    At(s, i) == Unquoted && IsSpace(s[i])
  }

  /** The character is part of a word: it is no quote mark or backslash that quotes, and separates no words. */
  predicate Taken(s: string, i: nat)
    requires i < |s|
  {
    match At(s, i)
    case Escaped(_) => true
    case Single => s[i] != '\''
    case Double => s[i] !in {'"', '\\'}
    case Unquoted => s[i] !in {'\'', '"', '\\'} && !IsSpace(s[i])
  }

  /** A dollar sign or a backtick that is neither escaped nor in single quotes. */
  predicate Expanding(s: string, i: nat)
    requires i < |s|
  {
    s[i] in {'$', '`'} && At(s, i) in {Unquoted, Double}
  }

  /** The characters taken from a up to b, in order. */
  function Text(s: string, a: nat, b: nat): string
    requires a <= b <= |s|
  {
    if a == b then "" else Text(s, a, b - 1) + if Taken(s, b - 1) then [s[b - 1]] else ""
  }

  /** Where the word at i begins. */
  function Begin(s: string, i: nat): (a: nat)
    requires i <= |s|
    ensures a <= i && (a > 0 ==> Separates(s, a - 1)) && forall k :: a <= k < i ==> !Separates(s, k)
  {
    if i == 0 || Separates(s, i - 1) then i else Begin(s, i - 1)
  }

  /** An operator or the beginning of a comment, outside quotes. */
  predicate Complex(s: string, i: nat)
    requires i < |s|
  {
    && At(s, i) == Unquoted
    && (s[i] in {'|', ';', '&', '<', '>'} || (s[i] == '#' && Text(s, Begin(s, i), i) == ""))
  }

  /** The word from a to b, if it has any character. */
  ghost function WordAt(s: string, a: nat, b: nat): seq<Token>
    requires a <= b <= |s|
  {
    if Text(s, a, b) == "" then []
    else [Token(Text(s, a, b), exists k :: a <= k < b && Expanding(s, k))]
  }

  /** The words that end before i. */
  ghost function Words(s: string, i: nat): seq<Token>
    requires i <= |s|
  {
    if i == 0 then []
    else Words(s, i - 1) + if Separates(s, i - 1) then WordAt(s, Begin(s, i - 1), i - 1) else []
  }

  ghost function AllWords(s: string): seq<Token> {
    Words(s, |s|) + WordAt(s, Begin(s, |s|), |s|)
  }

  /** A command is refused as too complex exactly for an unquoted operator or comment, or for a quote or an escape
      that does not end; otherwise its words are those between unquoted white space. */
  ghost function Meaning(s: string): Tokenized {
    if (exists i :: 0 <= i < |s| && Complex(s, i)) || At(s, |s|) != Unquoted then Refused(ComplexShell)
    else if AllWords(s) == [] then Refused(Empty)
    else Tokens(AllWords(s))
  }

  /** The lexer when it has read the first i characters. */
  ghost predicate HasRead(s: string, i: nat, x: Lexer)
    requires i <= |s|
  {
    && At(s, i) == (match x.quote case None => Unquoted case Some(c) => if c == '\'' then Single else Double)
    && (x.quote.Some? ==> x.quote.value in {'\'', '"'})
    && x.tokens == Words(s, i) && x.value == Text(s, Begin(s, i), i)
    && (x.dynamic <==> exists k :: Begin(s, i) <= k < i && Expanding(s, k))
    && forall k :: 0 <= k < i ==> !Complex(s, k)
  }

  /** One character further in the same word. */
  lemma Further(s: string, i: nat)
    requires i < |s| && !Separates(s, i)
    ensures Begin(s, i + 1) == Begin(s, i) && Words(s, i + 1) == Words(s, i)
    ensures Text(s, Begin(s, i), i + 1) == Text(s, Begin(s, i), i) + if Taken(s, i) then [s[i]] else ""
  {
    assert Words(s, i) + [] == Words(s, i);
  }

  lemma ReadOne(s: string, i: nat, x: Lexer, y: Lexer)
    requires i < |s| && HasRead(s, i, x) && Turn(s[i..], x) == Stay(y, 1) && !Complex(s, i)
    ensures HasRead(s, i + 1, y)
  {
    assert s[i..][0] == s[i];
    hide Complex, Words, Text, Begin;
    if Separates(s, i) {
      Ended(s, i, x);
    } else {
      Further(s, i);
      hide Separates;
      assert y.tokens == x.tokens && y.value == x.value + if Taken(s, i) then [s[i]] else "";
      assert y.dynamic <==> x.dynamic || Expanding(s, i);
      hide Taken, Expanding;
    }
  }

  lemma Ended(s: string, i: nat, x: Lexer)
    requires i < |s| && HasRead(s, i, x) && Separates(s, i) && !Complex(s, i)
    ensures HasRead(s, i + 1, x.Flushed())
  {
    assert Begin(s, i + 1) == i + 1 && Text(s, i + 1, i + 1) == "";
    assert Words(s, i + 1) == Words(s, i) + WordAt(s, Begin(s, i), i);
    assert At(s, i + 1) == Unquoted;
    assert Words(s, i) + [] == Words(s, i);
    var a := Begin(s, i);
    if x.value == "" {
      NothingTaken(s, a, i);
    }
    hide Complex, Taken, Expanding, Words, Text, Begin, At, Separates;
  }

  /** Where no character is taken none expands. */
  lemma {:induction false} NothingTaken(s: string, a: nat, b: nat)
    requires a <= b <= |s| && Text(s, a, b) == ""
    ensures forall k :: a <= k < b ==> !Expanding(s, k)
  {
    if a < b {
      NothingTaken(s, a, b - 1);
    }
  }

  lemma ReadTwo(s: string, i: nat, x: Lexer)
    requires i + 1 < |s| && HasRead(s, i, x) && s[i] == '\\' && x.quote != Some('\'')
    ensures HasRead(s, i + 2, x.Taking(s[i + 1], false))
  {
    assert !IsSpace('\\');
    Further(s, i);
    Further(s, i + 1);
    assert At(s, i + 1).Escaped?;
    assert !Complex(s, i) && !Complex(s, i + 1);
    assert !Expanding(s, i) && !Expanding(s, i + 1);
    hide Complex, Expanding, Words, Text, Begin;
  }

  lemma {:induction false} LexFrom(s: string, i: nat, x: Lexer)
    requires i <= |s| && HasRead(s, i, x)
    ensures Lex(s[i..], x) == Meaning(s)
    decreases |s| - i
  {
    if i == |s| {
      FinishedMeans(s, x);
    } else {
      var rest := s[i..];
      assert rest[0] == s[i];
      TurnMeans(s, i, x);
      match Turn(rest, x)
      case Give(_) =>
      case Stay(y, used) =>
        assert rest[used..] == s[i + used..];
        hide HasRead, Meaning, Turn;
        LexFrom(s, i + used, y);
    }
  }

  lemma TurnMeans(s: string, i: nat, x: Lexer)
    requires i < |s| && HasRead(s, i, x)
    ensures match Turn(s[i..], x)
      case Give(reason) => Meaning(s) == Refused(reason)
      case Stay(y, used) => i + used <= |s| && HasRead(s, i + used, y)
  {
    var rest := s[i..];
    assert rest[0] == s[i];
    if s[i] == '\\' && x.quote != Some('\'') {
      assert !IsSpace('\\');
      if i + 1 == |s| {
        assert At(s, |s|).Escaped?;
      } else {
        assert rest[1] == s[i + 1];
        ReadTwo(s, i, x);
      }
    } else if Complex(s, i) {
      assert !IsSpace(s[i]);
    } else {
      assert Turn(rest, x).Stay? && Turn(rest, x).used == 1;
      ReadOne(s, i, x, Turn(rest, x).lexer);
    }
  }

  lemma FinishedMeans(s: string, x: Lexer)
    requires HasRead(s, |s|, x)
    ensures x.Finished() == Meaning(s)
  {
    assert Words(s, |s|) + [] == Words(s, |s|);
    hide Complex, Expanding, Words, Text, Begin;
  }

  lemma {:induction false} LexBlank(s: string, x: Lexer)
    requires Blank(s) && x.quote == None && x.tokens == [] && x.value == ""
    ensures Lex(s, x) == Refused(Empty)
    decreases |s|
  {
    if s != "" {
      LexBlank(s[1..], x);
    }
  }

  /** The tokenizer gives every command its meaning. */
  lemma TokenizeExactly(s: string)
    ensures Tokenize(s) == Meaning(s)
  {
    assert HasRead(s, 0, START);
    LexFrom(s, 0, START);
    assert s[0..] == s;
    if Blank(s) {
      LexBlank(s, START);
    }
  }

  // ---------------------------------------------------------------- the words

  /** From one unquoted white space, or the beginning, to the next, or the end. */
  predicate Span(s: string, a: nat, b: nat) {
    && a <= b <= |s|
    && (a > 0 ==> Separates(s, a - 1)) && (b < |s| ==> Separates(s, b))
    && forall k :: a <= k < b ==> !Separates(s, k)
  }

  ghost predicate Spanned(s: string, t: Token, a: nat, b: nat) {
    Span(s, a, b) && t.value != "" && t.value == Text(s, a, b)
    && (t.dynamic <==> exists k :: a <= k < b && Expanding(s, k))
  }

  lemma {:induction false} SpanWord(s: string, i: nat, a: nat, b: nat)
    requires i <= |s| && Span(s, a, b) && b < i
    ensures forall t :: t in WordAt(s, a, b) ==> t in Words(s, i)
    decreases i
  {
    if i == b + 1 {
      BeginIs(s, a, b);
    } else {
      SpanWord(s, i - 1, a, b);
    }
  }

  lemma {:induction false} BeginIs(s: string, a: nat, b: nat)
    requires a <= b <= |s| && (a > 0 ==> Separates(s, a - 1)) && forall k :: a <= k < b ==> !Separates(s, k)
    ensures Begin(s, b) == a
  {
    if a < b {
      BeginIs(s, a, b - 1);
    }
  }

  lemma {:induction false} WordSpan(s: string, i: nat, t: Token)
    requires i <= |s| && t in Words(s, i)
    ensures exists a, b :: Spanned(s, t, a, b)
    decreases i
  {
    if t in Words(s, i - 1) {
      WordSpan(s, i - 1, t);
    } else {
      assert Spanned(s, t, Begin(s, i - 1), i - 1);
    }
  }

  /** A command's tokens are the words between unquoted white space: what is taken of them, dynamic exactly for an
      expansion in them. */
  lemma TokensExactly(s: string, t: Token)
    requires Tokenize(s).Tokens?
    ensures t in Tokenize(s).tokens <==> exists a, b :: Spanned(s, t, a, b)
  {
    TokenizeExactly(s);
    var last := Begin(s, |s|);
    if t in AllWords(s) {
      if t in Words(s, |s|) {
        WordSpan(s, |s|, t);
      } else {
        assert Spanned(s, t, last, |s|);
      }
    }
    forall a: nat, b: nat | Spanned(s, t, a, b) ensures t in AllWords(s) {
      assert t in WordAt(s, a, b);
      if b < |s| {
        SpanWord(s, |s|, a, b);
      } else {
        BeginIs(s, a, b);
      }
    }
  }
}
