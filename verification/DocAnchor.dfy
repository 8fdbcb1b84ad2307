/**
 Anchors of document comments: a text quote with its context, built from a selection in a
 rendered document and located again in the source (the TextQuoteSelector of the W3C Web
 Annotation Data Model, section 4.2.4).
 */
module DocAnchor {
  import opened Options
  import opened DocText
  import opened Search

  const EXACT_MAX: nat := 2_000
  const CONTEXT_MAX: nat := 500
  const CONTEXT_CHARS: nat := 48
  const NEIGHBOURHOOD: nat := 200

  datatype Anchor = Anchor(exact: string, prefix: Option<string>, suffix: Option<string>)

  datatype Range = Range(start: nat, end: nat)

  datatype Selection = Selection(source: string, selectedText: string, prefix: Option<string>, suffix: Option<string>)

  function Min(a: nat, b: nat): nat { if a < b then a else b }

  // ---------------------------------------------------------------- occurrences

  /** Every place at or after `from` where the needle occurs, in order; overlapping ones too. */
  function OccurrencesFrom(text: string, needle: string, from: nat): seq<nat>
    requires needle != ""
    decreases |text| + 1 - from
  {
    match IndexOf(text, needle, from)
    case None => []
    case Some(i) => [i] + OccurrencesFrom(text, needle, i + 1)
  }

  /** Nothing is missed. */
  lemma {:induction false} OccurrencesComplete(text: string, needle: string, from: nat, i: nat)
    requires needle != ""
    ensures i in OccurrencesFrom(text, needle, from) <==> from <= i && OccursAt(text, needle, i)
    decreases |text| + 1 - from
  {
    match IndexOf(text, needle, from)
    case None =>
    case Some(first) =>
      hide OccursAt;
      OccurrencesComplete(text, needle, first + 1, i);
  }

  predicate InOrder(out: seq<nat>, from: nat) {
    (forall k :: 0 <= k < |out| ==> from <= out[k]) && (forall j, k :: 0 <= j < k < |out| ==> out[j] < out[k])
  }

  /** Nothing is listed twice, and everything in order. */
  lemma {:induction false} OccurrencesInOrder(text: string, needle: string, from: nat)
    requires needle != ""
    ensures InOrder(OccurrencesFrom(text, needle, from), from)
    decreases |text| + 1 - from
  {
    match IndexOf(text, needle, from)
    case None =>
    case Some(first) =>
      hide OccursAt, InOrder;
      OccurrencesInOrder(text, needle, first + 1);
      Prepended(first, from, OccurrencesFrom(text, needle, first + 1));
  }

  lemma Prepended(first: nat, from: nat, rest: seq<nat>)
    requires from <= first && InOrder(rest, first + 1)
    ensures InOrder([first] + rest, from)
  {
  }

  function Occurrences(text: string, needle: string): seq<nat> {
    if needle == "" then [] else OccurrencesFrom(text, needle, 0)
  }

  method FindAllOccurrences(text: string, needle: string) returns (out: seq<nat>)
    ensures out == Occurrences(text, needle)
  {
    RemainingEdges(text, needle);
    hide *;
    out := [];
    if |needle| == 0 {
      return;
    }
    var idx := IndexOf(text, needle, 0);
    while idx.Some?
      invariant idx.Some? ==> idx.value <= |text|
      invariant Occurrences(text, needle) == out + Remaining(text, needle, idx)
      decreases if idx.Some? then |text| + 1 - idx.value else 0
    {
      var next := IndexOf(text, needle, idx.value + 1);
      RemainingNext(text, needle, idx.value);
      assert out + ([idx.value] + Remaining(text, needle, next)) == out + [idx.value] + Remaining(text, needle, next);
      out := out + [idx.value];
      idx := next;
    }
  }

  /** The occurrences from the one at hand on. */
  function Remaining(text: string, needle: string, idx: Option<nat>): seq<nat>
    requires needle != "" && (idx.Some? ==> idx.value <= |text|)
  {
    if idx.Some? then [idx.value] + OccurrencesFrom(text, needle, idx.value + 1) else []
  }

  lemma RemainingEdges(text: string, needle: string)
    ensures if needle == "" then Occurrences(text, needle) == []
            else Occurrences(text, needle) == Remaining(text, needle, IndexOf(text, needle, 0)) &&
                 Remaining(text, needle, None) == []
  {
    hide OccursAt, IndexOf;
  }

  lemma RemainingNext(text: string, needle: string, i: nat)
    requires needle != "" && i <= |text|
    ensures Remaining(text, needle, Some(i)) == [i] + Remaining(text, needle, IndexOf(text, needle, i + 1))
  {
    hide OccursAt, IndexOf;
  }

  // ---------------------------------------------------------------- scoring by context

  /** Length of the longest common prefix, of which n characters are known to agree. */
  function PrefixOverlap(context: string, hood: string, n: nat): nat
    decreases |context| - n
  {
    if n < Min(|context|, |hood|) && context[n] == hood[n] then PrefixOverlap(context, hood, n + 1) else n
  }

  function SuffixOverlap(context: string, hood: string, n: nat): nat
    decreases |context| - n
  {
    if n < Min(|context|, |hood|) && context[|context| - 1 - n] == hood[|hood| - 1 - n]
    then SuffixOverlap(context, hood, n + 1) else n
  }

  lemma {:induction false} PrefixOverlapLongest(context: string, hood: string, n: nat)
    requires n <= Min(|context|, |hood|) && context[..n] == hood[..n]
    ensures var r := PrefixOverlap(context, hood, n);
            && n <= r <= Min(|context|, |hood|) && context[..r] == hood[..r]
            && (r < Min(|context|, |hood|) ==> context[r] != hood[r])
    decreases |context| - n
  {
    if n < Min(|context|, |hood|) && context[n] == hood[n] {
      assert context[..n + 1] == context[..n] + [context[n]] && hood[..n + 1] == hood[..n] + [hood[n]];
      PrefixOverlapLongest(context, hood, n + 1);
    }
  }

  /** The two end alike for n characters. */
  predicate SameEnd(s: string, t: string, n: nat) {
    n <= |s| && n <= |t| && s[|s| - n..] == t[|t| - n..]
  }

  lemma SameEndGrows(s: string, t: string, n: nat)
    requires n < |s| && n < |t|
    ensures SameEnd(s, t, n + 1) <==> SameEnd(s, t, n) && s[|s| - 1 - n] == t[|t| - 1 - n]
  {
    var i, j := |s| - (n + 1), |t| - (n + 1);
    assert s[i..] == [s[i]] + s[i + 1..] && t[j..] == [t[j]] + t[j + 1..];
  }

  lemma {:induction false} SuffixOverlapLongest(context: string, hood: string, n: nat)
    requires SameEnd(context, hood, n)
    ensures var r := SuffixOverlap(context, hood, n);
            n <= r && SameEnd(context, hood, r) && !SameEnd(context, hood, r + 1)
    decreases |context| - n
  {
    if n < Min(|context|, |hood|) {
      SameEndGrows(context, hood, n);
      hide SameEnd;
      if SameEnd(context, hood, n + 1) {
        SuffixOverlapLongest(context, hood, n + 1);
      }
    }
  }

  method CountPrefixOverlap(context: string, hood: string) returns (n: nat)
    ensures n == PrefixOverlap(context, hood, 0)
  {
    var max := Min(|context|, |hood|);
    n := 0;
    while n < max && context[n] == hood[n]
      invariant n <= max
      invariant PrefixOverlap(context, hood, 0) == PrefixOverlap(context, hood, n)
    {
      n := n + 1;
    }
  }

  method CountSuffixOverlap(context: string, hood: string) returns (n: nat)
    ensures n == SuffixOverlap(context, hood, 0)
  {
    var max := Min(|context|, |hood|);
    n := 0;
    while n < max && context[|context| - 1 - n] == hood[|hood| - 1 - n]
      invariant n <= max
      invariant SuffixOverlap(context, hood, 0) == SuffixOverlap(context, hood, n)
    {
      n := n + 1;
    }
  }

  function Before(text: string, start: nat): string
    requires start <= |text|
  {
    text[if start < NEIGHBOURHOOD then 0 else start - NEIGHBOURHOOD..start]
  }

  function After(text: string, end: nat): string
    requires end <= |text|
  {
    text[end..Min(|text|, end + NEIGHBOURHOOD)]
  }

  /** How well the context fits around the occurrence at `start`. */
  function Score(text: string, start: nat, length: nat, before: string, after: string): nat
    requires start + length <= |text|
  {
    SuffixOverlap(before, Before(text, start), 0) + PrefixOverlap(after, After(text, start + length), 0)
  }

  predicate Within(text: string, occurrences: seq<nat>, length: nat) {
    forall i :: 0 <= i < |occurrences| ==> occurrences[i] + length <= |text|
  }

  /** The index of the first of the first n occurrences that score highest. */
  function Best(text: string, occurrences: seq<nat>, n: nat, length: nat, before: string, after: string): (best: nat)
    requires 0 < n <= |occurrences| && Within(text, occurrences, length)
    ensures best < n
  {
    if n == 1 then 0
    else
      var best := Best(text, occurrences, n - 1, length, before, after);
      if Score(text, occurrences[n - 1], length, before, after) > Score(text, occurrences[best], length, before, after)
      then n - 1 else best
  }

  lemma {:induction false} BestIsBest(text: string, occurrences: seq<nat>, n: nat, length: nat, before: string,
      after: string)
    requires 0 < n <= |occurrences| && Within(text, occurrences, length)
    ensures var best := Best(text, occurrences, n, length, before, after);
            forall i :: 0 <= i < n ==>
              var s, t := Score(text, occurrences[i], length, before, after),
                  Score(text, occurrences[best], length, before, after);
              if i < best then s < t else s <= t
  {
    hide Score;
    if n > 1 {
      BestIsBest(text, occurrences, n - 1, length, before, after);
    }
  }

  predicate Blank(context: Option<string>) {
    context == None || context == Some("")
  }

  function Collapsed(context: Option<string>): string {
    if Blank(context) then "" else Collapse(context.value)
  }

  function Pick(text: string, occurrences: seq<nat>, length: nat, before: Option<string>, after: Option<string>): nat
    requires occurrences != [] && Within(text, occurrences, length)
  {
    if |occurrences| == 1 || (Blank(before) && Blank(after)) then occurrences[0]
    else occurrences[Best(text, occurrences, |occurrences|, length, Collapsed(before), Collapsed(after))]
  }

  /** The occurrence picked is one of them, and none fits the context better. */
  lemma PickIsBest(text: string, occurrences: seq<nat>, length: nat, before: Option<string>, after: Option<string>,
      o: nat)
    requires occurrences != [] && Within(text, occurrences, length) && o in occurrences
    ensures var start := Pick(text, occurrences, length, before, after);
            && start in occurrences && start + length <= |text| && o + length <= |text|
            && Score(text, o, length, Collapsed(before), Collapsed(after))
              <= Score(text, start, length, Collapsed(before), Collapsed(after))
  {
    hide Score, Collapsed;
    var i :| 0 <= i < |occurrences| && occurrences[i] == o;
    if |occurrences| == 1 {
    } else if Blank(before) && Blank(after) {
      BlankScores(text, o, length, before, after);
      BlankScores(text, occurrences[0], length, before, after);
    } else {
      BestIsBest(text, occurrences, |occurrences|, length, Collapsed(before), Collapsed(after));
    }
  }

  /** Without a context every occurrence scores nothing. */
  lemma BlankScores(text: string, start: nat, length: nat, before: Option<string>, after: Option<string>)
    requires start + length <= |text| && Blank(before) && Blank(after)
    ensures Score(text, start, length, Collapsed(before), Collapsed(after)) == 0
  {
  }

  method CountScore(text: string, start: nat, length: nat, before: string, after: string) returns (score: nat)
    requires start + length <= |text|
    ensures score == Score(text, start, length, before, after)
  {
    var suffix := CountSuffixOverlap(before, Before(text, start));
    var prefix := CountPrefixOverlap(after, After(text, start + length));
    score := suffix + prefix;
  }

  /** The scoring loop of pickOccurrence. */
  method FindBest(text: string, occurrences: seq<nat>, length: nat, before: string, after: string)
      returns (start: nat)
    requires occurrences != [] && Within(text, occurrences, length)
    ensures start == occurrences[Best(text, occurrences, |occurrences|, length, before, after)]
  {
    hide Score;
    start := occurrences[0];
    ghost var best: nat := 0;
    var bestScore: int := -1;
    for i := 0 to |occurrences|
      invariant best < |occurrences| && start == occurrences[best]
      invariant i == 0 ==> best == 0 && bestScore == -1
      invariant i > 0 ==> best == Best(text, occurrences, i, length, before, after)
      invariant i > 0 ==> bestScore == Score(text, start, length, before, after)
    {
      var score := CountScore(text, occurrences[i], length, before, after);
      if score > bestScore {
        bestScore := score;
        start, best := occurrences[i], i;
      }
    }
  }

  method PickOccurrence(text: string, occurrences: seq<nat>, length: nat, before: Option<string>, after: Option<string>)
    returns (start: nat)
    requires occurrences != [] && Within(text, occurrences, length)
    ensures start == Pick(text, occurrences, length, before, after)
  {
    if |occurrences| == 1 || (Blank(before) && Blank(after)) {
      return occurrences[0];
    }
    hide Best;
    start := FindBest(text, occurrences, length, Collapsed(before), Collapsed(after));
  }

  // ---------------------------------------------------------------- building and locating

  lemma OccurrencesFit(text: string, needle: string)
    ensures Within(text, Occurrences(text, needle), |needle|)
    ensures forall i :: i in Occurrences(text, needle) <==> needle != "" && OccursAt(text, needle, i)
  {
    var all := Occurrences(text, needle);
    if needle != "" {
      forall i ensures i in all <==> OccursAt(text, needle, i) {
        OccurrencesComplete(text, needle, 0, i);
      }
      forall i | 0 <= i < |all| ensures all[i] + |needle| <= |text| {
        assert all[i] in all;
      }
    }
  }

  /** toRawRange. */
  function RawRange(view: View, start: nat, end: nat): Range
    requires start < end <= |view.back|
  {
    Range(view.back[start], view.back[end - 1] + 1)
  }

  /** The occurrence of the quote that the context picks out, if the quote occurs at all. */
  function Found(text: string, quote: string, before: Option<string>, after: Option<string>): (start: Option<nat>)
    ensures start.Some? ==> quote != "" && OccursAt(text, quote, start.value)
  {
    if Occurrences(text, quote) == [] then None
    else
      OccurrencesFit(text, quote);
      PickIsBest(text, Occurrences(text, quote), |quote|, before, after, Occurrences(text, quote)[0]);
      Some(Pick(text, Occurrences(text, quote), |quote|, before, after))
  }

  function TakeLast(s: string, n: nat): string { if |s| <= n then s else s[|s| - n..] }

  /** The raw context stored before and after a range. */
  function StoredPrefix(source: string, start: nat): string
    requires start <= |source|
  {
    TakeLast(source[if start < CONTEXT_CHARS then 0 else start - CONTEXT_CHARS..start], CONTEXT_MAX)
  }

  function StoredSuffix(source: string, end: nat): string
    requires end <= |source|
  {
    var s := source[end..Min(|source|, end + CONTEXT_CHARS)]; s[..Min(|s|, CONTEXT_MAX)]
  }

  function NonEmpty(s: string): Option<string> { if s == "" then None else Some(s) }

  function AnchorAt(source: string, range: Range): Anchor
    requires range.start <= range.end <= |source|
  {
    Anchor(source[range.start..range.end], NonEmpty(StoredPrefix(source, range.start)),
      NonEmpty(StoredSuffix(source, range.end)))
  }

  /** Begins and ends with a character. */
  predicate Normal(quote: string) {
    quote != "" && !IsSpace(quote[0]) && !IsSpace(quote[|quote| - 1])
  }

  /** The raw text of an occurrence of a quote in the view has the quote as its normal form. */
  function QuoteRange(source: string, quote: string, start: nat): (r: Range)
    requires Normal(quote) && OccursAt(Scan(source).text, quote, start)
    ensures r.start < r.end <= |source| && Normalize(source[r.start..r.end]) == quote
  {
    RangeValid(source, quote, start, start + |quote|);
    RawRange(Scan(source), start, start + |quote|)
  }

  /** What buildDocAnchor computes. */
  function Build(s: Selection): Option<Anchor> {
    var quote := Normalize(s.selectedText);
    if |quote| == 0 || |quote| > EXACT_MAX then None
    else
      match Found(Scan(s.source).text, quote, s.prefix, s.suffix)
      case None => None
      case Some(start) =>
        NormalEdges(s.selectedText);
        BuildAt(s.source, quote, start)
  }

  function BuildAt(source: string, quote: string, start: nat): Option<Anchor>
    requires Normal(quote) && OccursAt(Scan(source).text, quote, start)
  {
    var range := QuoteRange(source, quote, start);
    if range.end - range.start > EXACT_MAX then None else Some(AnchorAt(source, range))
  }

  /** What locateDocAnchor computes. */
  function Locate(source: string, anchor: Anchor): Option<Range> {
    match Found(Scan(source).text, Normalize(anchor.exact), anchor.prefix, anchor.suffix)
    case None => None
    case Some(start) =>
      NormalEdges(anchor.exact);
      Some(QuoteRange(source, Normalize(anchor.exact), start))
  }

  lemma OccursEdges(text: string, quote: string, start: nat, end: nat)
    requires Normal(quote) && OccursAt(text, quote, start) && end == start + |quote|
    ensures start < end <= |text| && !IsSpace(text[start]) && !IsSpace(text[end - 1]) && text[start..end] == quote
  {
    assert text[start..end][0] == quote[0];
  }

  lemma NormalEdges(raw: string)
    requires Normalize(raw) != ""
    ensures Normal(Normalize(raw))
  {
    ScanNormalizes(raw);
    BackMap(raw);
    hide Scan, Normalize, Points, Rises;
  }

  lemma RangeBack(source: string, quote: string, start: nat, end: nat)
    requires start < end <= |Scan(source).text| && Scan(source).text[start..end] == quote
    requires !IsSpace(Scan(source).text[start]) && !IsSpace(Scan(source).text[end - 1])
    ensures var r := RawRange(Scan(source), start, end);
            r.start < r.end <= |source| && Normalize(source[r.start..r.end]) == quote
  {
    hide Normalize, IsSpace, Scan;
    SliceBack(source, start, end);
  }

  /** A normal quote found in the view maps back to raw text that has it as its normal form. */
  lemma RangeValid(source: string, quote: string, start: nat, end: nat)
    requires end == start + |quote|
    requires Normal(quote) && OccursAt(Scan(source).text, quote, start)
    ensures end <= |Scan(source).text|
    ensures var r := RawRange(Scan(source), start, end);
            r.start < r.end <= |source| && Normalize(source[r.start..r.end]) == quote
  {
    hide *;
    OccursEdges(Scan(source).text, quote, start, end);
    RangeBack(source, quote, start, end);
  }

  method BuildDocAnchor(s: Selection) returns (anchor: Option<Anchor>)
    ensures anchor == Build(s)
  {
    hide Scan, Normalize, Pick, Occurrences;
    var selected := Normalize(s.selectedText);
    if |selected| == 0 || |selected| > EXACT_MAX {
      return None;
    }
    var text, back := NormalizeWithMap(s.source);
    var occurrences := FindAllOccurrences(text, selected);
    if |occurrences| == 0 {
      return None;
    }
    OccurrencesFit(text, selected);
    var start := PickOccurrence(text, occurrences, |selected|, s.prefix, s.suffix);
    assert Found(text, selected, s.prefix, s.suffix) == Some(start);
    NormalEdges(s.selectedText);
    RangeValid(s.source, selected, start, start + |selected|);
    var range := Range(back[start], back[start + |selected| - 1] + 1);
    if |s.source[range.start..range.end]| > EXACT_MAX {
      return None;
    }
    anchor := Some(AnchorAt(s.source, range));
  }

  method LocateInNormalized(source: string, text: string, back: seq<nat>, anchor: Anchor) returns (range: Option<Range>)
    requires text == Scan(source).text && back == Scan(source).back
    ensures range == Locate(source, anchor)
  {
    hide Scan, Normalize, Pick;
    var exact := Normalize(anchor.exact);
    if |exact| == 0 {
      return None;
    }
    var occurrences := FindAllOccurrences(text, exact);
    if |occurrences| == 0 {
      return None;
    }
    OccurrencesFit(text, exact);
    var start := PickOccurrence(text, occurrences, |exact|, anchor.prefix, anchor.suffix);
    assert Found(text, exact, anchor.prefix, anchor.suffix) == Some(start);
    range := Some(Range(back[start], back[start + |exact| - 1] + 1));
  }

  /** Many anchors are located against one normalized view, each as it would be on its own. */
  method LocateDocAnchors(source: string, anchors: seq<Anchor>) returns (ranges: seq<Option<Range>>)
    ensures |ranges| == |anchors| && forall i :: 0 <= i < |anchors| ==> ranges[i] == Locate(source, anchors[i])
  {
    var text, back := NormalizeWithMap(source);
    ranges := [];
    for i := 0 to |anchors|
      invariant |ranges| == i && forall j :: 0 <= j < i ==> ranges[j] == Locate(source, anchors[j])
    {
      var range := LocateInNormalized(source, text, back, anchors[i]);
      ranges := ranges + [range];
    }
  }

  // ---------------------------------------------------------------- the round trip

  /** The occurrence a selection picks. */
  function Original(s: Selection): Option<nat> {
    Found(Scan(s.source).text, Normalize(s.selectedText), s.prefix, s.suffix)
  }

  /** The occurrence an anchor is located at. */
  function Relocated(source: string, quote: string, anchor: Anchor): Option<nat> {
    Found(Scan(source).text, quote, anchor.prefix, anchor.suffix)
  }

  /** How well the context stored in an anchor fits around an occurrence. */
  function Fit(source: string, anchor: Anchor, quote: string, start: nat): nat
    requires OccursAt(Scan(source).text, quote, start)
  {
    Score(Scan(source).text, start, |quote|, Collapsed(anchor.prefix), Collapsed(anchor.suffix))
  }

  /** What an anchor that was built quotes: the raw text of the original occurrence. */
  lemma BuiltAnchor(s: Selection)
    requires Build(s).Some?
    ensures var q := Normalize(s.selectedText);
            && Normal(q) && Original(s).Some? && OccursAt(Scan(s.source).text, q, Original(s).value)
            && Build(s) == Some(AnchorAt(s.source, QuoteRange(s.source, q, Original(s).value)))
  {
    NormalEdges(s.selectedText);
    hide Scan, Normalize, QuoteRange, AnchorAt;
  }

  /** An anchor that can be built is located again in its source, at a range whose text has the
      selection as its normal form: the very range it was built from when the quote occurs
      once, and otherwise one that the stored context fits at least as well. */
  lemma RoundTrip(s: Selection)
    requires Build(s).Some?
    ensures var q, a := Normalize(s.selectedText), Build(s).value;
            && Normal(q) && Original(s).Some? && OccursAt(Scan(s.source).text, q, Original(s).value)
            && Relocated(s.source, q, a).Some? && OccursAt(Scan(s.source).text, q, Relocated(s.source, q, a).value)
            && (var original := QuoteRange(s.source, q, Original(s).value);
                var located := QuoteRange(s.source, q, Relocated(s.source, q, a).value);
                && Locate(s.source, a) == Some(located)
                && Normalize(s.source[located.start..located.end]) == q
                && a.exact == s.source[original.start..original.end]
                && (|Occurrences(Scan(s.source).text, q)| == 1 ==> located == original))
            && Fit(s.source, a, q, Original(s).value) <= Fit(s.source, a, q, Relocated(s.source, q, a).value)
  {
    BuiltAnchor(s);
    hide Build;
    Relocation(s.source, Normalize(s.selectedText), Original(s).value, Build(s).value);
  }

  lemma Relocation(source: string, q: string, start: nat, a: Anchor)
    requires Normal(q) && OccursAt(Scan(source).text, q, start) && a == AnchorAt(source, QuoteRange(source, q, start))
    ensures Normalize(a.exact) == q
    ensures Relocated(source, q, a).Some? && OccursAt(Scan(source).text, q, Relocated(source, q, a).value)
    ensures Locate(source, a) == Some(QuoteRange(source, q, Relocated(source, q, a).value))
    ensures |Occurrences(Scan(source).text, q)| == 1 ==> Relocated(source, q, a).value == start
    ensures Fit(source, a, q, start) <= Fit(source, a, q, Relocated(source, q, a).value)
  {
    assert q != "";
    hide Scan, Normalize, QuoteRange, Score, Pick, OccursAt, Normal, StoredPrefix, StoredSuffix;
    var t := Scan(source).text;
    OccurrencesFit(t, q);
    assert start in Occurrences(t, q);
    PickIsBest(t, Occurrences(t, q), |q|, a.prefix, a.suffix, start);
    if |Occurrences(t, q)| == 1 {
      assert Occurrences(t, q)[0] == start;
    }
  }
}
