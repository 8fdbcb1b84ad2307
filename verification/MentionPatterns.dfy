/** The patterns of the segmenter, each told on its own: what matches them, and which matches a scan lists. */
module MentionPatterns {
  import opened Options
  import opened Search
  import opened Mentions

  /** Two fences with none in between, however long the text between them is. */
  predicate FenceMatch(content: string, fence: string, i: nat, e: nat) {
    && OccursAt(content, fence, i) && i + 6 <= e && OccursAt(content, fence, e - 3)
    && forall j :: i + 3 <= j < e - 3 ==> !OccursAt(content, fence, j)
  }

  /** Two backticks around some characters, none of which is a backtick or a line feed. */
  predicate InlineMatch(content: string, i: nat, e: nat) {
    && i + 3 <= e <= |content| && content[i] == '`' && content[e - 1] == '`'
    && forall k :: i < k < e - 1 ==> content[k] != '`' && content[k] != '\n'
  }

  predicate NameChar(c: char) {
    'A' <= c <= 'Z' || 'a' <= c <= 'z' || '0' <= c <= '9' || c == '_' || c == '-'
  }

  /** `@` and a name of 1 to 64 characters that begins with a letter or digit: not behind a name, a dot or another
      `@`, and not before a slash or more of a name. */
  predicate MentionMatch(content: string, i: nat, e: nat) {
    && i + 2 <= e <= i + 65 && e <= |content| && content[i] == '@'
    && (i > 0 ==> !NameChar(content[i - 1]) && content[i - 1] != '.' && content[i - 1] != '@')
    && content[i + 1] != '_' && content[i + 1] != '-'
    && (forall k :: i < k < e ==> NameChar(content[k]))
    && (e < |content| ==> !NameChar(content[e]) && content[e] != '/')
  }

  // ---------------------------------------------------------------- scanning

  /** A pattern of code regions. */
  datatype Pattern = Fenced(fence: string) | Inline

  predicate Matched(content: string, m: Pattern, i: nat, e: nat) {
    match m
    case Fenced(fence) => FenceMatch(content, fence, i, e)
    case Inline => InlineMatch(content, i, e)
  }

  /** A pattern matches at a place in one way only. */
  lemma MatchOnce(content: string, m: Pattern, i: nat, e: nat, e': nat)
    requires Matched(content, m, i, e) && Matched(content, m, i, e')
    ensures e == e'
  {
    match m
    case Fenced(fence) =>
      hide OccursAt;
      assert OccursAt(content, fence, e - 3) && OccursAt(content, fence, e' - 3);
    case Inline =>
      assert content[e - 1] == '`' && content[e' - 1] == '`';
  }

  /** Matches, in order, none of which reaches into the next. */
  predicate InTurn(rs: seq<Range>, from: nat, content: string, m: Pattern) {
    && (forall k :: 0 <= k < |rs| ==> from <= rs[k].start < rs[k].end && Matched(content, m, rs[k].start, rs[k].end))
    && (forall j, k :: 0 <= j < k < |rs| ==> rs[j].end <= rs[k].start)
  }

  /** No match begins outside of them. */
  ghost predicate NoneSkipped(rs: seq<Range>, from: nat, content: string, m: Pattern) {
    forall i, e :: from <= i && Matched(content, m, i, e) ==> Covered(rs, i)
  }

  /** A global scan. */
  ghost predicate ScanOf(rs: seq<Range>, from: nat, content: string, m: Pattern) {
    InTurn(rs, from, content, m) && NoneSkipped(rs, from, content, m)
  }

  lemma ScanSkips(rs: seq<Range>, from: nat, next: nat, content: string, m: Pattern)
    requires ScanOf(rs, next, content, m) && from <= next
    requires forall i, e :: from <= i < next ==> !Matched(content, m, i, e)
    ensures ScanOf(rs, from, content, m)
  {
    hide Matched, Covered;
  }

  lemma ScanEnds(from: nat, content: string, m: Pattern)
    requires forall i, e :: from <= i ==> !Matched(content, m, i, e)
    ensures ScanOf([], from, content, m)
  {
    hide Matched;
  }

  lemma ScanHits(rs: seq<Range>, a: nat, b: nat, content: string, m: Pattern)
    requires ScanOf(rs, b, content, m) && a < b && Matched(content, m, a, b)
    ensures ScanOf([Range(a, b)] + rs, a, content, m)
  {
    hide Matched, Covered;
    TurnHits(rs, a, b, content, m);
    var all := [Range(a, b)] + rs;
    hide InTurn;
    forall i: nat, e: nat | a <= i && Matched(content, m, i, e) ensures Covered(all, i) {
      Prepended(Range(a, b), rs, i);
    }
  }

  lemma TurnHits(rs: seq<Range>, a: nat, b: nat, content: string, m: Pattern)
    requires InTurn(rs, b, content, m) && a < b && Matched(content, m, a, b)
    ensures InTurn([Range(a, b)] + rs, a, content, m)
  {
    hide Matched;
    var all := [Range(a, b)] + rs;
    assert all[0] == Range(a, b) && forall k :: 0 < k < |all| ==> all[k] == rs[k - 1];
  }

  lemma Prepended(first: Range, rest: seq<Range>, i: nat)
    ensures Covered([first] + rest, i) <==> Contains(first, i) || Covered(rest, i)
  {
    var all := [first] + rest;
    if Covered(rest, i) {
      var k :| 0 <= k < |rest| && Contains(rest[k], i);
      assert Contains(all[k + 1], i);
    }
    assert Contains(all[0], i) <==> Contains(first, i);
    assert forall k :: 0 < k < |all| ==> all[k] == rest[k - 1];
  }

  /** A range is listed exactly if it is a match that begins behind the earlier ones. */
  lemma ScanLists(rs: seq<Range>, content: string, m: Pattern, r: Range)
    requires ScanOf(rs, 0, content, m)
    ensures r in rs <==> Listed(r, rs, content, m)
  {
    hide Matched, Covered;
    if r in rs {
      var k :| 0 <= k < |rs| && rs[k] == r;
      forall j | 0 <= j < |rs| && rs[j].start < r.start ensures rs[j].end <= r.start {
      }
    }
    if Listed(r, rs, content, m) {
      assert Covered(rs, r.start);
      hide NoneSkipped;
      Holding(rs, content, m, r);
    }
  }

  lemma Holding(rs: seq<Range>, content: string, m: Pattern, r: Range)
    requires InTurn(rs, 0, content, m) && Covered(rs, r.start) && Listed(r, rs, content, m)
    ensures r in rs
  {
    hide Matched;
    var k :| 0 <= k < |rs| && Contains(rs[k], r.start);
    hide Covered;
    var q := rs[k];
    assert q.start == r.start;
    MatchOnce(content, m, r.start, q.end, r.end);
  }

  /** A match that begins behind those of the list that begin earlier. */
  predicate Listed(r: Range, rs: seq<Range>, content: string, m: Pattern) {
    Matched(content, m, r.start, r.end) && forall k :: 0 <= k < |rs| && rs[k].start < r.start ==> rs[k].end <= r.start
  }

  /** The fenced regions are what a scan lists: none is skipped. */
  lemma {:induction false} FencesScan(content: string, fence: string, from: nat)
    requires |fence| == 3
    ensures ScanOf(Fences(content, fence, from), from, content, Fenced(fence))
    decreases |content| + 1 - from
  {
    var m := Fenced(fence);
    NextFence(content, fence, from);
    hide *;
    match FirstFence(content, fence, from)
    case None => ScanEnds(from, content, m);
    case Some(r) =>
      var rest := Fences(content, fence, r.end);
      FencesScan(content, fence, r.end);
      ScanHits(rest, r.start, r.end, content, m);
      ScanSkips([r] + rest, from, r.start, content, m);
  }

  /** The first fenced region from a place on. */
  function FirstFence(content: string, fence: string, from: nat): Option<Range> {
    match IndexOf(content, fence, from)
    case None => None
    case Some(a) => match IndexOf(content, fence, a + 3) case None => None case Some(b) => Some(Range(a, b + 3))
  }

  lemma NextFence(content: string, fence: string, from: nat)
    requires |fence| == 3
    ensures match FirstFence(content, fence, from)
            case None =>
              Fences(content, fence, from) == [] && forall i, e :: from <= i ==> !Matched(content, Fenced(fence), i, e)
            case Some(r) =>
              && Fences(content, fence, from) == [r] + Fences(content, fence, r.end)
              && from <= r.start < r.end <= |content| && Matched(content, Fenced(fence), r.start, r.end)
              && forall i, e :: from <= i < r.start ==> !Matched(content, Fenced(fence), i, e)
  {
    match IndexOf(content, fence, from)
    case None =>
      NoFence(content, fence, from, |content| + 1);
      Beyond(content, fence);
      hide OccursAt, IndexOf, Matched;
    case Some(a) =>
      NoFence(content, fence, from, a);
      match IndexOf(content, fence, a + 3)
      case None =>
        Unclosed(content, fence, a);
        hide OccursAt, IndexOf, Matched;
      case Some(b) =>
        Closed(content, fence, a, b);
        hide OccursAt, IndexOf, Matched;
  }

  lemma Beyond(content: string, fence: string)
    ensures forall i, e :: i > |content| ==> !Matched(content, Fenced(fence), i, e)
  {
  }

  lemma Closed(content: string, fence: string, a: nat, b: nat)
    requires |fence| == 3 && OccursAt(content, fence, a) && IndexOf(content, fence, a + 3) == Some(b)
    ensures Matched(content, Fenced(fence), a, b + 3)
  {
  }

  lemma NoFence(content: string, fence: string, from: nat, next: nat)
    requires |fence| == 3 && forall j :: from <= j < next && j <= |content| ==> !OccursAt(content, fence, j)
    ensures forall i, e :: from <= i < next ==> !Matched(content, Fenced(fence), i, e)
  {
  }

  lemma Unclosed(content: string, fence: string, a: nat)
    requires |fence| == 3 && forall j :: a + 3 <= j <= |content| ==> !OccursAt(content, fence, j)
    ensures forall i, e :: a <= i ==> !Matched(content, Fenced(fence), i, e)
  {
    forall i: nat, e: nat | a <= i ensures !FenceMatch(content, fence, i, e) {
      assert i + 6 <= e ==> !OccursAt(content, fence, e - 3);
    }
  }

  lemma {:induction false} InlineRun(content: string, i: nat)
    requires i <= |content|
    ensures var j := InlineEnd(content, i);
            && (forall k :: i <= k < j ==> content[k] != '`' && content[k] != '\n')
            && (j < |content| ==> content[j] == '`' || content[j] == '\n')
    decreases |content| - i
  {
    if i < |content| && content[i] != '`' && content[i] != '\n' {
      InlineRun(content, i + 1);
    }
  }

  lemma InlineAt(content: string, i: nat, e: nat)
    requires i < |content| && content[i] == '`'
    ensures var j := InlineEnd(content, i + 1);
            InlineMatch(content, i, e) <==> j > i + 1 && j < |content| && content[j] == '`' && e == j + 1
  {
    InlineRun(content, i + 1);
  }

  /** So is the inline code. */
  lemma {:induction false} InlinesScan(content: string, from: nat)
    ensures ScanOf(Inlines(content, from), from, content, Inline)
    decreases |content| - from
  {
    hide *;
    var m := Inline;
    if from >= |content| {
      PastEnd(content, from);
      ScanEnds(from, content, m);
    } else {
      NextInline(content, from);
      var j := InlineEnd(content, from + 1);
      if Matched(content, m, from, j + 1) {
        InlinesScan(content, j + 1);
        ScanHits(Inlines(content, j + 1), from, j + 1, content, m);
      } else {
        InlinesScan(content, from + 1);
        ScanSkips(Inlines(content, from + 1), from, from + 1, content, m);
      }
    }
  }

  lemma PastEnd(content: string, from: nat)
    requires from >= |content|
    ensures Inlines(content, from) == [] && forall i, e :: from <= i ==> !Matched(content, Inline, i, e)
  {
  }

  /** A match at hand is listed, and the scan goes on behind it; otherwise it goes on with the next character. */
  lemma NextInline(content: string, from: nat)
    requires from < |content|
    ensures var j := InlineEnd(content, from + 1);
            if Matched(content, Inline, from, j + 1)
            then Inlines(content, from) == [Range(from, j + 1)] + Inlines(content, j + 1)
            else Inlines(content, from) == Inlines(content, from + 1)
                 && forall e :: !Matched(content, Inline, from, e)
  {
    var j := InlineEnd(content, from + 1);
    if content[from] == '`' {
      forall e: nat ensures InlineMatch(content, from, e) <==>
          j > from + 1 && j < |content| && content[j] == '`' && e == j + 1
      {
        InlineAt(content, from, e);
      }
      hide InlineMatch, InlineEnd;
    }
  }

  /** A code region is listed exactly if one of the three patterns matches it behind the earlier regions of that
      pattern. */
  lemma RawExactly(content: string, r: Range)
    ensures r in RawRanges(content) <==>
              || Listed(r, Fences(content, "```", 0), content, Fenced("```"))
              || Listed(r, Fences(content, "~~~", 0), content, Fenced("~~~"))
              || Listed(r, Inlines(content, 0), content, Inline)
  {
    var a, b, c := Fences(content, "```", 0), Fences(content, "~~~", 0), Inlines(content, 0);
    assert r in RawRanges(content) <==> r in a || r in b || r in c;
    FencesScan(content, "```", 0);
    FencesScan(content, "~~~", 0);
    InlinesScan(content, 0);
    hide *;
    ScanLists(a, content, Fenced("```"), r);
    ScanLists(b, content, Fenced("~~~"), r);
    ScanLists(c, content, Inline, r);
  }

  // ---------------------------------------------------------------- mentions

  /** The matcher of mentions finds an end exactly where there is a match: at most one ends anywhere. */
  lemma MentionExactly(content: string, i: nat, e: nat)
    ensures MentionEnd(content, i) == Some(e) <==> MentionMatch(content, i, e)
  {
    assert forall c :: TokenChar(c) <==> NameChar(c);
    if i + 1 < |content| {
      var t := TokenEnd(content, i + 1);
      hide TokenEnd;
      if MentionMatch(content, i, e) {
        assert t == e;
      }
    }
  }
}
