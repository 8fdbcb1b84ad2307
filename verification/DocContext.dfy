/** The stored context of an anchor really is the context of the occurrence it was built from, so it
    singles that occurrence out among all that are not surrounded by the same text. */
module DocContext {
  import opened Options
  import opened DocText
  import opened DocAnchor
  import opened Search

  predicate Suffix(s: string, t: string) {
    |s| <= |t| && t[|t| - |s|..] == s
  }

  // ---------------------------------------------------------------- collapsing a part of the source

  lemma {:induction false} CollapseShorter(x: string)
    ensures |Collapse(x)| <= |x|
    decreases |x|
  {
    if x != "" {
      CollapseShorter(x[..|x| - 1]);
    }
  }

  lemma {:induction false} CollapsePrefix(x: string, n: nat)
    requires n <= |x|
    ensures Collapse(x[..n]) <= Collapse(x)
    decreases |x| - n
  {
    if n == |x| {
      assert x[..n] == x;
    } else {
      CollapsePrefix(x, n + 1);
      assert x[..n + 1][..n] == x[..n];
    }
  }

  lemma {:induction false} CollapseSuffix(x: string, y: string)
    ensures Suffix(Collapse(y), Collapse(x + y))
    decreases |y|
  {
    if y == "" {
      assert Collapse(x + y)[|Collapse(x + y)|..] == "";
    } else {
      var n := |y| - 1;
      CollapseSuffix(x, y[..n]);
      assert (x + y)[..|x + y| - 1] == x + y[..n];
      assert n > 0 ==> (x + y)[|x + y| - 2] == y[n - 1];
      if n == 0 {
        assert x + y[..n] == x;
        CollapseSingle(x);
        assert Collapse(y) == Collapse(y[..0]) + (if IsSpace(y[0]) then " " else [y[0]]);
      }
    }
  }

  /** After a non-space character the view goes on with the collapsed rest. */
  lemma {:induction false} TailCollapses(raw: string, b: nat)
    requires 0 < b <= |raw| && !IsSpace(raw[b - 1])
    ensures Ahead(Scan(raw)) == Scan(raw[..b]).text + Collapse(raw[b..])
    ensures Scan(raw).pending <==> IsSpace(raw[|raw| - 1])
    decreases |raw|
  {
    var n := |raw| - 1;
    if b == |raw| {
      assert raw[..b] == raw && raw[b..] == "";
      TextLonger(raw, b);
    } else {
      TailCollapses(raw[..n], b);
      TextLonger(raw[..n], b);
      assert raw[..n][..b] == raw[..b] && raw[..n][b..] == raw[b..n];
      hide Scan, Collapse, IsSpace;
      TailStep(raw, b, n);
    }
  }

  /** The text of a view with the space that is pending. */
  function Ahead(v: View): string {
    v.text + (if v.pending then " " else "")
  }

  /** One more character on both sides: a space that follows another one counts on neither. */
  lemma AheadNext(v: View, w: View, u: string, c: string, d: string, x: char, space: bool)
    requires Ahead(v) == u + c
    requires w.pending == space && w.text == if space then v.text else if v.pending then v.text + [' ', x]
              else v.text + [x]
    requires d == if !space then c + [x] else if v.pending then c else c + " "
    ensures Ahead(w) == u + d
  {
    assert u + c + [x] == u + (c + [x]) && u + c + " " == u + (c + " ");
    assert v.text + [' ', x] == v.text + " " + [x];
    assert v.text + "" == v.text && w.text + "" == w.text;
  }

  lemma CollapseTail(raw: string, b: nat, n: nat)
    requires b <= n && n + 1 == |raw|
    ensures Collapse(raw[b..]) == if !IsSpace(raw[n]) then Collapse(raw[b..n]) + [raw[n]]
                                  else if b < n && IsSpace(raw[n - 1]) then Collapse(raw[b..n])
                                  else Collapse(raw[b..n]) + " "
  {
    var r := raw[b..];
    CollapseLast(r);
    hide Collapse, IsSpace;
    assert r[..|r| - 1] == raw[b..n] && r[|r| - 1] == raw[n];
    assert b < n ==> r[|r| - 2] == raw[n - 1];
  }

  lemma TailStep(raw: string, b: nat, n: nat)
    requires 0 < b <= n && n + 1 == |raw| && !IsSpace(raw[b - 1])
    requires Scan(raw[..n]).text != ""
    requires Scan(raw[..n]).pending <==> IsSpace(raw[n - 1])
    requires Ahead(Scan(raw[..n])) == Scan(raw[..b]).text + Collapse(raw[b..n])
    ensures Ahead(Scan(raw)) == Scan(raw[..b]).text + Collapse(raw[b..])
    ensures Scan(raw).pending <==> IsSpace(raw[n])
  {
    hide *;
    ScanLast(raw);
    CollapseTail(raw, b, n);
    assert b == n ==> raw[n - 1] == raw[b - 1];
    AheadNext(Scan(raw[..n]), Scan(raw), Scan(raw[..b]).text, Collapse(raw[b..n]), Collapse(raw[b..]), raw[n],
      IsSpace(raw[n]));
  }

  lemma TextLonger(raw: string, b: nat)
    requires 0 < b <= |raw| && !IsSpace(raw[b - 1])
    ensures Scan(raw[..b]).text != "" && !Scan(raw[..b]).pending && |Scan(raw).text| >= |Scan(raw[..b]).text|
  {
    ScanPrefix(raw, b);
  }

  // ---------------------------------------------------------------- the context of an occurrence

  lemma OverlapOfSuffix(context: string, hood: string)
    requires Suffix(context, hood)
    ensures SuffixOverlap(context, hood, 0) == |context|
  {
    SuffixOverlapLongest(context, hood, 0);
  }

  lemma OverlapOfPrefix(context: string, hood: string)
    requires context <= hood
    ensures PrefixOverlap(context, hood, 0) == |context|
  {
    PrefixOverlapLongest(context, hood, 0);
  }

  lemma SuffixOfHood(context: string, text: string, start: nat)
    requires start <= |text| && Suffix(context, text[..start]) && |context| <= NEIGHBOURHOOD
    ensures Suffix(context, Before(text, start))
  {
    var h := Before(text, start);
    assert h[|h| - |context|..] == text[start - |context|..start];
    assert text[..start][start - |context|..] == text[start - |context|..start];
  }

  lemma PrefixOfHood(context: string, text: string, end: nat)
    requires end <= |text| && context <= text[end..] && |context| <= NEIGHBOURHOOD
    ensures context <= After(text, end)
  {
    assert text[end..][..|context|] == text[end..end + |context|];
    assert After(text, end)[..|context|] == text[end..end + |context|];
  }

  /** The stored prefix takes in everything before, down to white space the source begins with: the view has
      trimmed the space that collapses to. */
  predicate LeadLost(source: string, a: nat)
    requires a <= |source|
  {
    a > 0 && IsSpace(source[0]) && Collapse(StoredPrefix(source, a)) == Collapse(source[..a])
  }

  predicate TrailLost(source: string, b: nat)
    requires b <= |source|
  {
    b < |source| && IsSpace(source[|source| - 1]) && Collapse(StoredSuffix(source, b)) == Collapse(source[b..])
  }

  /** How many characters of the stored context the view has trimmed. */
  function Lost(source: string, r: Range): nat
    requires r.start <= r.end <= |source|
  {
    (if LeadLost(source, r.start) then 1 else 0) + (if TrailLost(source, r.end) then 1 else 0)
  }

  /** The collapsed stored text before an occurrence is what the view has there, but for a lost space. */
  ghost predicate EndsBefore(source: string, a: nat, before: string)
    requires a <= |source|
  {
    var p := Collapse(StoredPrefix(source, a));
    && |p| <= CONTEXT_CHARS
    && (if LeadLost(source, a) then p == " " + before else Suffix(p, before))
  }

  ghost predicate BeginsAfter(source: string, b: nat, after: string)
    requires b <= |source|
  {
    var q := Collapse(StoredSuffix(source, b));
    && |q| <= CONTEXT_CHARS
    && (if TrailLost(source, b) then q == after + " " else q <= after)
  }

  lemma ContextBefore(source: string, start: nat)
    requires start < |Scan(source).text| && !IsSpace(Scan(source).text[start])
    ensures var a := Scan(source).back[start]; a < |source| && EndsBefore(source, a, Scan(source).text[..start])
  {
    var a := Scan(source).back[start];
    ScanAt(source, start);
    hide *;
    ViewBefore(source[..a]);
    StoredBefore(source, a);
    LeadSpace(source, a);
    var space := a > 0 && IsSpace(source[0]);
    LeadSplit(Collapse(StoredPrefix(source, a)), Collapse(source[..a]), space);
    BeforeEnds(source, a, Scan(source).text[..start]);
  }

  lemma BeforeEnds(source: string, a: nat, before: string)
    requires a <= |source| && before == Unled(Collapse(source[..a]))
    requires |Collapse(StoredPrefix(source, a))| <= CONTEXT_CHARS
    requires var p, c := Collapse(StoredPrefix(source, a)), Collapse(source[..a]);
             if a > 0 && IsSpace(source[0]) && p == c then p == " " + Unled(c) else Suffix(p, Unled(c))
    ensures EndsBefore(source, a, before)
  {
    hide Collapse, StoredPrefix, Suffix, Unled, IsSpace;
  }

  lemma ViewBefore(x: string)
    ensures Scan(x).text + (if Scan(x).pending then " " else "") == Unled(Collapse(x))
  {
    ScanCollapses(x);
  }

  lemma LeadSpace(source: string, a: nat)
    requires a <= |source|
    ensures var c := Collapse(source[..a]);
            if a > 0 && IsSpace(source[0]) then c != "" && c[0] == ' ' else c == "" || c[0] != ' '
  {
    CollapseSingle(source[..a]);
    assert IsSpace(' ');
    hide IsSpace;
  }

  /** A suffix of the collapsed text is one of the text without its leading space, unless it is all of it. */
  lemma LeadSplit(p: string, c: string, space: bool)
    requires Suffix(p, c) && (space ==> c != "" && c[0] == ' ') && (!space ==> c == "" || c[0] != ' ')
    ensures if space && p == c then p == " " + Unled(c) else Suffix(p, Unled(c))
  {
    var n := |c| - |p|;
    assert c[n..] == p;
    if space {
      var u := c[1..];
      assert Unled(c) == u;
      if n == 0 {
        assert c[0..] == c;
        assert c == " " + u;
      } else {
        var m := n - 1;
        assert u[m..] == c[n..];
        assert |u| - |p| == m;
      }
    }
  }

  lemma StoredBefore(source: string, a: nat)
    requires a <= |source|
    ensures Suffix(Collapse(StoredPrefix(source, a)), Collapse(source[..a]))
    ensures |Collapse(StoredPrefix(source, a))| <= CONTEXT_CHARS
  {
    var p := StoredPrefix(source, a);
    var i := if a < CONTEXT_CHARS then 0 else a - CONTEXT_CHARS;
    assert p == source[i..a];
    assert source[..a] == source[..i] + p;
    CollapseSuffix(source[..i], p);
    CollapseShorter(p);
  }

  lemma ContextAfter(source: string, end: nat)
    requires 0 < end <= |Scan(source).text| && !IsSpace(Scan(source).text[end - 1])
    ensures var b := Scan(source).back[end - 1] + 1; b <= |source| && BeginsAfter(source, b, Scan(source).text[end..])
  {
    var last := end - 1;
    var b := Scan(source).back[last] + 1;
    CharBack(source, last);
    ScanUpTo(source, last, end, b);
    TailCollapses(source, b);
    StoredAfter(source, b);
    CollapseSingle(source[b..]);
    hide Scan, Collapse, StoredSuffix;
    TailIsRest(Scan(source), Collapse(source[b..]), end);
    TrailSplit(Collapse(StoredSuffix(source, b)), Collapse(source[b..]), Scan(source).text[end..],
               b < |source| && IsSpace(source[|source| - 1]));
  }

  lemma TailIsRest(v: View, c: string, end: nat)
    requires end <= |v.text| && Ahead(v) == v.text[..end] + c
    ensures c == v.text[end..] + (if v.pending then " " else "")
  {
    assert (v.text[..end] + c)[end..] == c;
    assert Ahead(v)[end..] == v.text[end..] + (if v.pending then " " else "");
  }

  lemma TrailSplit(q: string, c: string, rest: string, space: bool)
    requires q <= c && (if space then c == rest + " " else c == rest)
    ensures if space && q == c then q == rest + " " else q <= rest
  {
    if space && q != c {
      assert |q| <= |rest|;
      assert q == c[..|q|] == rest[..|q|];
    }
  }

  lemma StoredAfter(source: string, b: nat)
    requires b <= |source|
    ensures Collapse(StoredSuffix(source, b)) <= Collapse(source[b..])
              && |Collapse(StoredSuffix(source, b))| <= CONTEXT_CHARS
  {
    var q := StoredSuffix(source, b);
    var n := |q|;
    var e := b + n;
    assert q == source[b..e];
    assert source[b..][..n] == source[b..e];
    CollapsePrefix(source[b..], |q|);
    CollapseShorter(q);
  }

  /** What the stored context scores where it was taken from. */
  lemma BeforeFits(source: string, a: nat, text: string, start: nat)
    requires a <= |source| && start <= |text| && EndsBefore(source, a, text[..start])
    ensures var p := Collapse(StoredPrefix(source, a));
            SuffixOverlap(p, Before(text, start), 0) == |p| - (if LeadLost(source, a) then 1 else 0)
  {
    var p := Collapse(StoredPrefix(source, a));
    hide LeadLost;
    if LeadLost(source, a) {
      assert Before(text, start) == text[..start];
      SuffixOverlapLongest(p, text[..start], 0);
    } else {
      SuffixOfHood(p, text, start);
      OverlapOfSuffix(p, Before(text, start));
    }
  }

  lemma AfterFits(source: string, b: nat, text: string, end: nat)
    requires b <= |source| && end <= |text| && BeginsAfter(source, b, text[end..])
    ensures var q := Collapse(StoredSuffix(source, b));
            PrefixOverlap(q, After(text, end), 0) == |q| - (if TrailLost(source, b) then 1 else 0)
  {
    var q := Collapse(StoredSuffix(source, b));
    hide TrailLost;
    if TrailLost(source, b) {
      assert After(text, end) == text[end..];
      PrefixOverlapLongest(q, text[end..], 0);
    } else {
      PrefixOfHood(q, text, end);
      OverlapOfPrefix(q, After(text, end));
    }
  }

  /** What is stored around a quote fits where it was taken from, up to the spaces the view has trimmed. */
  lemma StoredFits(source: string, start: nat, end: nat)
    requires start < end <= |Scan(source).text|
    requires !IsSpace(Scan(source).text[start]) && !IsSpace(Scan(source).text[end - 1])
    ensures var r := RawRange(Scan(source), start, end);
            && r.start <= r.end <= |source|
            && (var p, q := Collapse(StoredPrefix(source, r.start)), Collapse(StoredSuffix(source, r.end));
                && |p| <= CONTEXT_CHARS && |q| <= CONTEXT_CHARS
                && Score(Scan(source).text, start, end - start, p, q) + Lost(source, r) == |p| + |q|)
  {
    hide Scan, Collapse, IsSpace, StoredPrefix, StoredSuffix, SuffixOverlap, PrefixOverlap, Suffix, Before, After;
    hide LeadLost, TrailLost;
    var t := Scan(source).text;
    ContextBefore(source, start);
    ContextAfter(source, end);
    SliceBack(source, start, end);
    var r := RawRange(Scan(source), start, end);
    BeforeFits(source, r.start, t, start);
    AfterFits(source, r.end, t, end);
  }

  /** An occurrence that scores as much as the context is long is surrounded by all of it. */
  lemma FullScore(text: string, start: nat, length: nat, before: string, after: string)
    requires start + length <= |text| && Score(text, start, length, before, after) >= |before| + |after|
    ensures Suffix(before, text[..start]) && after <= text[start + length..]
  {
    SuffixOverlapLongest(before, Before(text, start), 0);
    PrefixOverlapLongest(after, After(text, start + length), 0);
    hide SuffixOverlap, PrefixOverlap, Suffix, Before, After;
    SuffixFromHood(before, text, start);
    PrefixFromHood(after, text, start + length);
  }

  lemma SuffixFromHood(context: string, text: string, start: nat)
    requires start <= |text| && SuffixOverlap(context, Before(text, start), 0) == |context|
    ensures Suffix(context, text[..start])
  {
    var n, h := |context|, Before(text, start);
    SuffixOverlapLongest(context, h, 0);
    hide SuffixOverlap;
    assert context[0..] == context;
    var m := start - n;
    assert text[..start][m..] == text[m..start];
    assert h[|h| - n..] == text[m..start];
  }

  lemma PrefixFromHood(context: string, text: string, end: nat)
    requires end <= |text| && PrefixOverlap(context, After(text, end), 0) == |context|
    ensures context <= text[end..]
  {
    var n, h := |context|, After(text, end);
    PrefixOverlapLongest(context, h, 0);
    hide PrefixOverlap;
    assert context[..n] == context;
    assert n <= |h|;
    assert h == text[end..end + |h|];
    assert forall i :: 0 <= i < n ==> h[i] == text[end..][i];
  }

  /** An anchor is located only where the text around agrees with the stored context in all but the spaces the
      view has trimmed; where none was trimmed, only where all of the stored context is found: a wrong
      occurrence can be picked only when it cannot be told from the right one. */
  lemma LocatedInContext(s: Selection)
    requires Build(s).Some?
    ensures var q, t, a := Normalize(s.selectedText), Scan(s.source).text, Build(s).value;
            && Original(s).Some? && Normal(q) && OccursAt(t, q, Original(s).value)
            && Relocated(s.source, q, a).Some? && OccursAt(t, q, Relocated(s.source, q, a).value)
            && InContext(s.source, q, a, QuoteRange(s.source, q, Original(s).value), Relocated(s.source, q, a).value)
  {
    var q, a := Normalize(s.selectedText), Build(s).value;
    RoundTrip(s);
    BuiltAnchor(s);
    hide Build, Scan, Normalize, Relocated, Original, QuoteRange, AnchorAt, Fit, Normal, OccursAt, Locate, InContext;
    var start, located := Original(s).value, Relocated(s.source, q, a).value;
    BestInContext(s.source, a, q, start, start + |q|, located);
  }

  /** The text around `located` agrees with the context stored for r, up to the trimmed spaces. */
  ghost predicate InContext(source: string, q: string, a: Anchor, r: Range, located: nat)
    requires OccursAt(Scan(source).text, q, located) && r.start <= r.end <= |source|
  {
    var t := Scan(source).text;
    && Fit(source, a, q, located) + Lost(source, r) >= |Collapsed(a.prefix)| + |Collapsed(a.suffix)|
    && (Lost(source, r) == 0 ==>
          Suffix(Collapsed(a.prefix), t[..located]) && Collapsed(a.suffix) <= t[located + |q|..])
  }

  lemma BestInContext(source: string, a: Anchor, q: string, start: nat, end: nat, located: nat)
    requires Normal(q) && end == start + |q|
    requires OccursAt(Scan(source).text, q, start) && OccursAt(Scan(source).text, q, located)
    requires a == AnchorAt(source, QuoteRange(source, q, start))
             && Fit(source, a, q, start) <= Fit(source, a, q, located)
    ensures InContext(source, q, a, QuoteRange(source, q, start), located)
  {
    hide Scan, Normalize, Collapse, IsSpace, Collapsed, Score, AnchorAt, StoredPrefix, StoredSuffix, Lost;
    var t := Scan(source).text;
    OccursEdges(t, q, start, end);
    StoredFits(source, start, end);
    CollapsedStored(source, RawRange(Scan(source), start, end));
    if Lost(source, RawRange(Scan(source), start, end)) == 0 {
      FullScore(t, located, |q|, Collapsed(a.prefix), Collapsed(a.suffix));
    }
  }

  lemma CollapsedStored(source: string, r: Range)
    requires r.start <= r.end <= |source|
    ensures Collapsed(AnchorAt(source, r).prefix) == Collapse(StoredPrefix(source, r.start))
    ensures Collapsed(AnchorAt(source, r).suffix) == Collapse(StoredSuffix(source, r.end))
  {
  }
}
