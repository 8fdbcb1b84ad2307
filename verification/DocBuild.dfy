/** When an anchor can be built, and what it stores. */
module DocBuild {
  import opened Options
  import opened Search
  import opened DocText
  import opened DocAnchor

  /** The raw text of the quote where it occurs in the view: from the place of its first character in the source
      to the place of its last one. */
  predicate RawText(source: string, quote: string, start: nat, range: Range) {
    && quote != "" && start + |quote| <= |Scan(source).back|
    && range == Range(Scan(source).back[start], Scan(source).back[start + |quote| - 1] + 1)
  }

  /** An anchor can be built exactly for a selection that is not blank, is at most 2000 characters long, occurs in
      the view, and is at most 2000 raw characters long where the context picks it. */
  lemma BuildExactly(s: Selection)
    ensures var q, text := Normalize(s.selectedText), Scan(s.source).text;
            && (Original(s).Some? <==> q != "" && exists i :: OccursAt(text, q, i))
            && (Build(s).Some? <==>
                && 0 < |q| <= 2_000 && (exists i :: OccursAt(text, q, i))
                && (exists range ::
                      && RawText(s.source, q, Original(s).value, range)
                      && range.end <= range.start + 2_000))
  {
    var q, text := Normalize(s.selectedText), Scan(s.source).text;
    OccurrencesFit(text, q);
    assert Occurrences(text, q) != [] ==> Occurrences(text, q)[0] in Occurrences(text, q);
    if Original(s).Some? {
      NormalEdges(s.selectedText);
      Ranged(s.source, q, Original(s).value);
    }
    hide Scan, Normalize, Occurrences, AnchorAt;
  }

  lemma Ranged(source: string, q: string, start: nat)
    requires Normal(q) && OccursAt(Scan(source).text, q, start)
    ensures RawText(source, q, start, QuoteRange(source, q, start))
  {
    ScanSizes(source);
    hide Scan, Normalize;
    RangeValid(source, q, start, start + |q|);
  }

  lemma ScanSizes(source: string)
    ensures |Scan(source).back| == |Scan(source).text|
  {
    BackMap(source);
  }

  /** The context is stored raw: the 48 characters before the range and the 48 behind it, or as many as there
      are; none is stored where there is none. */
  lemma ContextStored(s: Selection)
    requires Build(s).Some?
    ensures var q, a := Normalize(s.selectedText), Build(s).value;
            exists range ::
              && RawText(s.source, q, Original(s).value, range) && range.start < range.end <= |s.source|
              && a.exact == s.source[range.start..range.end]
              && a.prefix == (if range.start == 0 then None
                              else Some(s.source[if range.start < 48 then 0 else range.start - 48..range.start]))
              && a.suffix == (if range.end == |s.source| then None
                              else Some(s.source[range.end..if range.end + 48 < |s.source| then range.end + 48
                                                            else |s.source|]))
  {
    BuiltAnchor(s);
    var q := Normalize(s.selectedText);
    Ranged(s.source, q, Original(s).value);
    var range := QuoteRange(s.source, q, Original(s).value);
    Stored(s.source, range);
    hide *;
    assert RawText(s.source, q, Original(s).value, range);
  }

  lemma Stored(source: string, range: Range)
    requires range.start < range.end <= |source|
    ensures AnchorAt(source, range) == Anchor(
              source[range.start..range.end],
              if range.start == 0 then None
              else Some(source[if range.start < 48 then 0 else range.start - 48..range.start]),
              if range.end == |source| then None
              else Some(source[range.end..if range.end + 48 < |source| then range.end + 48 else |source|]))
  {
    var s := source[range.end..Min(|source|, range.end + CONTEXT_CHARS)];
    assert s[..Min(|s|, CONTEXT_MAX)] == s;
  }

  /** The score counts the characters before the occurrence that the context ends with, and those behind it that
      the context begins with, as far as 200 characters each way. */
  lemma ScoreCounts(text: string, start: nat, length: nat, before: string, after: string, m: nat, n: nat)
    requires start + length <= |text|
    requires m <= 200 && m <= start && m <= |before| && before[|before| - m..] == text[start - m..start]
    requires m == 200 || m == start || m == |before| || before[|before| - 1 - m] != text[start - 1 - m]
    requires var end := start + length;
        && n <= 200 && end + n <= |text| && n <= |after| && after[..n] == text[end..end + n]
        && (n == 200 || end + n == |text| || n == |after| || after[n] != text[end + n])
    ensures Score(text, start, length, before, after) == m + n
  {
    EndCounted(text, start, before, m);
    StartCounted(text, start + length, after, n);
    hide SuffixOverlap, PrefixOverlap, Before, After;
  }

  lemma EndCounted(text: string, start: nat, before: string, m: nat)
    requires start <= |text|
    requires m <= 200 && m <= start && m <= |before| && before[|before| - m..] == text[start - m..start]
    requires m == 200 || m == start || m == |before| || before[|before| - 1 - m] != text[start - 1 - m]
    ensures SuffixOverlap(before, Before(text, start), 0) == m
  {
    hide SuffixOverlap;
    Hood(text, start, m);
    hide Before;
    EndCount(Before(text, start), before, m);
  }

  lemma Hood(text: string, start: nat, m: nat)
    requires m <= 200 && m <= start <= |text|
    ensures var b := Before(text, start);
            && |b| == Min(200, start) && b[|b| - m..] == text[start - m..start]
            && (m < |b| ==> b[|b| - 1 - m] == text[start - 1 - m])
  {
  }

  lemma EndCount(b: string, before: string, m: nat)
    requires m <= |b| && m <= |before| && before[|before| - m..] == b[|b| - m..]
    requires m == |b| || m == |before| || before[|before| - 1 - m] != b[|b| - 1 - m]
    ensures SuffixOverlap(before, b, 0) == m
  {
    hide *;
    EndAlike(b, before, m);
    Shorter(before, b, 0, m);
    SuffixOverlapLongest(before, b, 0);
    Longest(before, b, m, SuffixOverlap(before, b, 0));
  }

  lemma EndAlike(b: string, before: string, m: nat)
    requires m <= |b| && m <= |before| && before[|before| - m..] == b[|b| - m..]
    requires m == |b| || m == |before| || before[|before| - 1 - m] != b[|b| - 1 - m]
    ensures SameEnd(before, b, m) && !SameEnd(before, b, m + 1)
  {
    if m < Min(|before|, |b|) {
      SameEndGrows(before, b, m);
    }
  }

  /** Two counts of characters the texts end alike for, neither of which can be exceeded. */
  lemma Longest(s: string, t: string, m: nat, r: nat)
    requires SameEnd(s, t, m) && !SameEnd(s, t, m + 1) && SameEnd(s, t, r) && !SameEnd(s, t, r + 1)
    ensures m == r
  {
    if m < r {
      Shorter(s, t, m + 1, r);
    } else if r < m {
      Shorter(s, t, r + 1, m);
    }
  }

  lemma Shorter(s: string, t: string, m: nat, r: nat)
    requires SameEnd(s, t, r) && m <= r
    ensures SameEnd(s, t, m)
  {
    assert s[|s| - r..][r - m..] == s[|s| - m..] && t[|t| - r..][r - m..] == t[|t| - m..];
  }

  lemma StartCounted(text: string, end: nat, after: string, n: nat)
    requires end + n <= |text| && n <= 200 && n <= |after| && after[..n] == text[end..end + n]
    requires n == 200 || end + n == |text| || n == |after| || after[n] != text[end + n]
    ensures PrefixOverlap(after, After(text, end), 0) == n
  {
    var a := After(text, end);
    PrefixOverlapLongest(after, a, 0);
    var t := PrefixOverlap(after, a, 0);
    assert |a| == Min(200, |text| - end);
    assert forall k :: 0 <= k < |a| ==> a[k] == text[end + k];
    assert forall k :: 0 <= k < t ==> after[k] == after[..t][k] && a[k] == a[..t][k];
    assert forall k :: 0 <= k < n ==> after[k] == after[..n][k] && text[end..end + n][k] == text[end + k];
    hide *;
    assert n <= |a|;
    assert forall k :: 0 <= k < n ==> after[k] == a[k];
  }
}
