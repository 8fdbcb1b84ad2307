/**
 Segmentation of a message into text and `@name` mentions, with mentions inside Markdown
 code suppressed by a merged list of code ranges.
 */
module Mentions {
  import opened Options
  import opened Search

  /** [start, end). */
  datatype Range = Range(start: nat, end: nat)

  predicate Contains(r: Range, index: nat) {
    r.start <= index < r.end
  }

  predicate Covered(ranges: seq<Range>, index: nat) {
    exists k :: 0 <= k < |ranges| && Contains(ranges[k], index)
  }

  // ---------------------------------------------------------------- code regions as written

  /** Matches of /F[\s\S]*?F/g for a three-character fence F. */
  function Fences(content: string, fence: string, from: nat): (rs: seq<Range>)
    requires |fence| == 3
    ensures forall k :: 0 <= k < |rs| ==> from <= rs[k].start < rs[k].end <= |content|
    decreases |content| + 1 - from
  {
    match IndexOf(content, fence, from)
    case None => []
    case Some(i) =>
      match IndexOf(content, fence, i + 3)
      case None => []
      case Some(j) => [Range(i, j + 3)] + Fences(content, fence, j + 3)
  }

  /** End of the run of characters from i that are neither a backtick nor a line feed. */
  function InlineEnd(content: string, i: nat): (j: nat)
    requires i <= |content|
    ensures i <= j <= |content|
    decreases |content| - i
  {
    if i == |content| || content[i] == '`' || content[i] == '\n' then i else InlineEnd(content, i + 1)
  }

  /** Matches of /`[^`\n]+`/g. */
  function Inlines(content: string, from: nat): (rs: seq<Range>)
    ensures forall k :: 0 <= k < |rs| ==> from <= rs[k].start < rs[k].end <= |content|
    decreases |content| - from
  {
    if from >= |content| then []
    else if content[from] != '`' then Inlines(content, from + 1)
    else
      var j := InlineEnd(content, from + 1);
      if j > from + 1 && j < |content| && content[j] == '`' then [Range(from, j + 1)] + Inlines(content, j + 1)
      else Inlines(content, from + 1)
  }

  /** Every match of the three patterns, each scanned on its own. */
  function RawRanges(content: string): seq<Range> {
    Fences(content, "```", 0) + Fences(content, "~~~", 0) + Inlines(content, 0)
  }

  // ---------------------------------------------------------------- sorting and merging

  predicate Ordered(rs: seq<Range>) {
    forall j, k :: 0 <= j < k < |rs| ==> rs[j].start <= rs[k].start
  }

  /** No two ranges touch. */
  predicate Separated(rs: seq<Range>) {
    && (forall k :: 0 <= k < |rs| ==> rs[k].start <= rs[k].end)
    && (forall j, k :: 0 <= j < k < |rs| ==> rs[j].end < rs[k].start)
  }

  function Insert(rs: seq<Range>, r: Range): seq<Range> {
    if rs == [] || rs[|rs| - 1].start <= r.start then rs + [r]
    else Insert(rs[..|rs| - 1], r) + [rs[|rs| - 1]]
  }

  /** Array.prototype.sort by start; equal starts keep their order. */
  function Sort(rs: seq<Range>): seq<Range> {
    if rs == [] then [] else Insert(Sort(rs[..|rs| - 1]), rs[|rs| - 1])
  }

  lemma {:induction false} InsertOrdered(rs: seq<Range>, r: Range)
    requires Ordered(rs)
    ensures Ordered(Insert(rs, r)) && multiset(Insert(rs, r)) == multiset(rs) + multiset{r}
    decreases |rs|
  {
    if rs != [] && rs[|rs| - 1].start > r.start {
      var n := |rs| - 1;
      InsertOrdered(rs[..n], r);
      InsertBounded(rs[..n], r, rs[n].start);
      AppendOrdered(Insert(rs[..n], r), rs[n]);
      assert rs == rs[..n] + [rs[n]];
    } else {
      AppendOrdered(rs, r);
    }
  }

  lemma AppendOrdered(rs: seq<Range>, r: Range)
    requires Ordered(rs) && forall k :: 0 <= k < |rs| ==> rs[k].start <= r.start
    ensures Ordered(rs + [r])
  {
  }

  lemma {:induction false} InsertBounded(rs: seq<Range>, r: Range, bound: nat)
    requires r.start <= bound && forall k :: 0 <= k < |rs| ==> rs[k].start <= bound
    ensures forall k :: 0 <= k < |Insert(rs, r)| ==> Insert(rs, r)[k].start <= bound
    decreases |rs|
  {
    if rs != [] && rs[|rs| - 1].start > r.start {
      InsertBounded(rs[..|rs| - 1], r, bound);
    }
  }

  lemma {:induction false} SortOrdered(rs: seq<Range>)
    ensures Ordered(Sort(rs)) && multiset(Sort(rs)) == multiset(rs)
    decreases |rs|
  {
    if rs != [] {
      SortOrdered(rs[..|rs| - 1]);
      InsertOrdered(Sort(rs[..|rs| - 1]), rs[|rs| - 1]);
      assert rs == rs[..|rs| - 1] + [rs[|rs| - 1]];
    }
  }

  lemma SameCover(a: seq<Range>, b: seq<Range>, index: nat)
    requires multiset(a) == multiset(b)
    ensures Covered(a, index) <==> Covered(b, index)
  {
    forall r ensures r in a <==> r in b {
      assert r in multiset(a) <==> r in multiset(b);
    }
    if Covered(a, index) {
      var k :| 0 <= k < |a| && Contains(a[k], index);
      assert a[k] in b;
      var j :| 0 <= j < |b| && b[j] == a[k];
    }
    if Covered(b, index) {
      var k :| 0 <= k < |b| && Contains(b[k], index);
      assert b[k] in a;
      var j :| 0 <= j < |a| && a[j] == b[k];
    }
  }

  /** The sorted ranges with every range that touches the last one folded into it. */
  method MergeRanges(sorted: seq<Range>) returns (merged: seq<Range>)
    requires Ordered(sorted) && forall k :: 0 <= k < |sorted| ==> sorted[k].start <= sorted[k].end
    ensures Separated(merged)
    ensures forall index :: Covered(merged, index) <==> Covered(sorted, index)
  {
    merged := [];
    for i := 0 to |sorted|
      invariant Separated(merged)
      invariant i > 0 ==> merged != [] && merged[|merged| - 1].start <= sorted[i - 1].start
      invariant i == 0 ==> merged == []
      invariant forall index :: Covered(merged, index) <==> Covered(sorted[..i], index)
    {
      var next := sorted[i];
      ghost var before := merged;
      CoverLast(sorted, i);
      if merged != [] && next.start <= merged[|merged| - 1].end {
        var n := |merged| - 1;
        var last := Range(merged[n].start, if merged[n].end < next.end then next.end else merged[n].end);
        CoverFold(merged, next, last);
        merged := merged[..n] + [last];
      } else {
        CoverAppend(merged, next);
        merged := merged + [next];
      }
      forall index ensures Covered(merged, index) <==> Covered(sorted[..i + 1], index) {
        assert Covered(before, index) <==> Covered(sorted[..i], index);
      }
    }
    assert sorted[..|sorted|] == sorted;
  }

  lemma CoverLast(rs: seq<Range>, i: nat)
    requires i < |rs|
    ensures forall index :: Covered(rs[..i + 1], index) <==> Covered(rs[..i], index) || Contains(rs[i], index)
  {
    assert rs[..i + 1] == rs[..i] + [rs[i]];
    CoverAppend(rs[..i], rs[i]);
  }

  lemma CoverAppend(rs: seq<Range>, r: Range)
    ensures forall index :: Covered(rs + [r], index) <==> Covered(rs, index) || Contains(r, index)
  {
    forall index ensures Covered(rs + [r], index) <==> Covered(rs, index) || Contains(r, index) {
      var all := rs + [r];
      if Covered(rs, index) {
        var k :| 0 <= k < |rs| && Contains(rs[k], index);
        assert Contains(all[k], index);
      }
      if Contains(r, index) {
        assert Contains(all[|rs|], index);
      }
      if Covered(all, index) {
        var k :| 0 <= k < |all| && Contains(all[k], index);
        assert k < |rs| ==> Contains(rs[k], index);
      }
    }
  }

  lemma CoverFold(rs: seq<Range>, next: Range, last: Range)
    requires rs != [] && rs[|rs| - 1].start <= next.start <= rs[|rs| - 1].end
    requires last.start == rs[|rs| - 1].start
    requires last.end == if rs[|rs| - 1].end < next.end then next.end else rs[|rs| - 1].end
    ensures forall index :: Covered(rs[..|rs| - 1] + [last], index) <==> Covered(rs, index) || Contains(next, index)
  {
    var n := |rs| - 1;
    assert rs == rs[..n] + [rs[n]];
    CoverAppend(rs[..n], rs[n]);
    CoverAppend(rs[..n], last);
    assert forall index :: Contains(last, index) <==> Contains(rs[n], index) || Contains(next, index);
  }

  /** codeRanges: what is covered is exactly what some pattern matched. */
  method CodeRanges(content: string) returns (ranges: seq<Range>)
    ensures |ranges| <= 1 || Separated(ranges)
    ensures forall index :: Covered(ranges, index) <==> Covered(RawRanges(content), index)
  {
    var raw := RawRanges(content);
    if |raw| <= 1 {
      return raw;
    }
    SortCovers(raw);
    ranges := MergeRanges(Sort(raw));
  }

  lemma SortCovers(raw: seq<Range>)
    requires forall k :: 0 <= k < |raw| ==> raw[k].start <= raw[k].end
    ensures Ordered(Sort(raw)) && forall index :: Covered(Sort(raw), index) <==> Covered(raw, index)
    ensures forall k :: 0 <= k < |Sort(raw)| ==> Sort(raw)[k].start <= Sort(raw)[k].end
  {
    SortOrdered(raw);
    hide Sort, Ordered;
    var sorted := Sort(raw);
    forall index ensures Covered(sorted, index) <==> Covered(raw, index) {
      SameCover(sorted, raw, index);
    }
    forall k | 0 <= k < |sorted| ensures sorted[k].start <= sorted[k].end {
      assert sorted[k] in multiset(sorted);
      assert sorted[k] in raw;
    }
  }

  /** isInCodeRange: the early exit is right because the ranges are in order. */
  method IsInCodeRange(index: nat, ranges: seq<Range>) returns (inside: bool)
    requires |ranges| <= 1 || Separated(ranges)
    ensures inside <==> Covered(ranges, index)
  {
    for i := 0 to |ranges|
      invariant forall k :: 0 <= k < i ==> !Contains(ranges[k], index)
    {
      if index < ranges[i].start {
        return false;
      }
      if index < ranges[i].end {
        assert Contains(ranges[i], index);
        return true;
      }
    }
    return false;
  }

  // ---------------------------------------------------------------- mentions as written

  predicate Alnum(c: char) {
    'A' <= c <= 'Z' || 'a' <= c <= 'z' || '0' <= c <= '9'
  }

  predicate TokenChar(c: char) {
    Alnum(c) || c == '_' || c == '-'
  }

  const TOKEN_MAX: nat := 64

  /** End of the run of token characters from i. */
  function TokenEnd(content: string, i: nat): (e: nat)
    requires i <= |content|
    ensures i <= e <= |content| && forall k :: i <= k < e ==> TokenChar(content[k])
    ensures e < |content| ==> !TokenChar(content[e])
    decreases |content| - i
  {
    if i < |content| && TokenChar(content[i]) then TokenEnd(content, i + 1) else i
  }

  /** End of the match of MENTION_REGEX that starts at i.  A shorter match than the whole run is never
      one, as the run would go on behind it. */
  function MentionEnd(content: string, i: nat): (r: Option<nat>)
    ensures r.Some? ==> i + 1 < r.value <= |content| && forall k :: i < k < r.value ==> content[k] != '@'
  {
    if i + 1 >= |content| || content[i] != '@' || !Alnum(content[i + 1])
       || (i > 0 && (TokenChar(content[i - 1]) || content[i - 1] == '.' || content[i - 1] == '@'))
    then None
    else
      var e := TokenEnd(content, i + 1);
      if e - (i + 1) > TOKEN_MAX || (e < |content| && content[e] == '/') then None else Some(e)
  }

  /** content.matchAll(MENTION_REGEX), from a position on. */
  function Matches(content: string, from: nat): (ms: seq<Range>)
    ensures forall k :: 0 <= k < |ms| ==> from <= ms[k].start && MentionEnd(content, ms[k].start) == Some(ms[k].end)
    ensures forall j, k :: 0 <= j < k < |ms| ==> ms[j].end <= ms[k].start
    decreases |content| - from
  {
    if from >= |content| then []
    else match MentionEnd(content, from)
      case None => Matches(content, from + 1)
      case Some(e) => [Range(from, e)] + Matches(content, e)
  }

  /** Skipping behind a match never skips another one. */
  lemma {:induction false} MatchesComplete(content: string, from: nat, i: nat)
    requires from <= i && MentionEnd(content, i).Some?
    ensures Range(i, MentionEnd(content, i).value) in Matches(content, from)
    decreases |content| - from
  {
    if from < |content| {
      match MentionEnd(content, from)
      case None =>
        MatchesComplete(content, from + 1, i);
      case Some(e) =>
        if from < i {
          assert content[i] == '@';
          MatchesComplete(content, e, i);
        }
    }
  }

  // ---------------------------------------------------------------- segments

  datatype Participant = Participant(agentId: nat, name: Option<string>)

  datatype Segment = Text(value: string) | Mention(value: string, name: string, agentId: nat)

  /** A mention and where it starts. */
  datatype Chip = Chip(start: nat, value: string, name: string, agentId: nat)

  predicate Named(p: Participant) {
    p.name.Some? && p.name.value != ""
  }

  /** The name map: the last participant of that name wins; names compare in lower case. */
  function Resolve(ps: seq<Participant>, token: string, lower: string -> string): Option<Participant> {
    if ps == [] then None
    else
      var p := ps[|ps| - 1];
      if Named(p) && lower(p.name.value) == lower(token) then Some(p) else Resolve(ps[..|ps| - 1], token, lower)
  }

  /** The chip of one match, unless it is in code or names nobody. */
  function ChipOf(content: string, m: Range, ps: seq<Participant>, lower: string -> string): (c: seq<Chip>)
    requires m.start + 1 < m.end <= |content|
  {
    var p := Resolve(ps, content[m.start + 1..m.end], lower);
    if Covered(RawRanges(content), m.start) || p.None? || !Named(p.value) then []
    else [Chip(m.start, content[m.start..m.end], p.value.name.value, p.value.agentId)]
  }

  function ChipsOf(content: string, ms: seq<Range>, ps: seq<Participant>, lower: string -> string): seq<Chip>
    requires forall k :: 0 <= k < |ms| ==> ms[k].start + 1 < ms[k].end <= |content|
  {
    if ms == [] then []
    else ChipsOf(content, ms[..|ms| - 1], ps, lower) + ChipOf(content, ms[|ms| - 1], ps, lower)
  }

  lemma MatchesValid(content: string)
    ensures var ms := Matches(content, 0); forall k :: 0 <= k < |ms| ==> ms[k].start + 1 < ms[k].end <= |content|
  {
  }

  /** The mentions of a message, each with its place. */
  function Expected(content: string, ps: seq<Participant>, lower: string -> string): seq<Chip> {
    MatchesValid(content);
    ChipsOf(content, Matches(content, 0), ps, lower)
  }

  function Joined(segments: seq<Segment>): string {
    if segments == [] then "" else Joined(segments[..|segments| - 1]) + segments[|segments| - 1].value
  }

  /** No text segment is empty, and no two are neighbours. */
  predicate Tidy(segments: seq<Segment>) {
    && (forall k :: 0 <= k < |segments| && segments[k].Text? ==> segments[k].value != "")
    && (forall k :: 0 < k < |segments| && segments[k].Text? ==> segments[k - 1].Mention?)
  }

  /** The mentions among the segments, each at the place its segment has in the joined text. */
  function Chips(segments: seq<Segment>): seq<Chip> {
    if segments == [] then []
    else
      var rest, last := segments[..|segments| - 1], segments[|segments| - 1];
      Chips(rest) + (if last.Text? then [] else [Chip(|Joined(rest)|, last.value, last.name, last.agentId)])
  }

  lemma Appended(segments: seq<Segment>, s: Segment)
    ensures Joined(segments + [s]) == Joined(segments) + s.value
    ensures Chips(segments + [s])
            == Chips(segments) + (if s.Text? then [] else [Chip(|Joined(segments)|, s.value, s.name, s.agentId)])
  {
    assert (segments + [s])[..|segments|] == segments;
  }

  lemma EmptySegments()
    ensures Joined([]) == "" && Chips([]) == [] && Tidy([])
  {
  }

  lemma ChipsNext(content: string, ms: seq<Range>, i: nat, ps: seq<Participant>, lower: string -> string)
    requires i < |ms| && forall k :: 0 <= k < |ms| ==> ms[k].start + 1 < ms[k].end <= |content|
    ensures ChipsOf(content, ms[..i + 1], ps, lower) == ChipsOf(content, ms[..i], ps, lower)
              + ChipOf(content, ms[i], ps, lower)
  {
    assert ms[..i + 1][..i] == ms[..i];
  }

  lemma {:induction false} NobodyNamed(ps: seq<Participant>, token: string, lower: string -> string)
    requires forall k :: 0 <= k < |ps| ==> !Named(ps[k])
    ensures Resolve(ps, token, lower) == None
    decreases |ps|
  {
    if ps != [] {
      NobodyNamed(ps[..|ps| - 1], token, lower);
    }
  }

  lemma {:induction false} NoChips(content: string, ms: seq<Range>, ps: seq<Participant>, lower: string -> string)
    requires forall k :: 0 <= k < |ms| ==> ms[k].start + 1 < ms[k].end <= |content|
    requires forall k :: 0 <= k < |ps| ==> !Named(ps[k])
    ensures ChipsOf(content, ms, ps, lower) == []
    decreases |ms|
  {
    if ms != [] {
      NoChips(content, ms[..|ms| - 1], ps, lower);
      NobodyNamed(ps, content[ms[|ms| - 1].start + 1..ms[|ms| - 1].end], lower);
    }
  }

  /** segmentMentions: the segments tile the message, no two text segments touch and none is empty, and the
      mentions are exactly the resolved matches outside code, in place. */
  method SegmentMentions(content: string, ps: seq<Participant>, lower: string -> string) returns (out: seq<Segment>)
    ensures Joined(out) == content
    ensures Tidy(out)
    ensures Chips(out) == Expected(content, ps, lower)
  {
    var ms := Matches(content, 0);
    MatchesValid(content);
    if content == "" {
      return [];
    }
    if forall k :: 0 <= k < |ps| ==> !Named(ps[k]) {
      NoChips(content, ms, ps, lower);
      Appended([], Text(content));
      return [] + [Text(content)];
    }
    var skipRanges := CodeRanges(content);
    out := SegmentMatches(content, ms, ps, lower, skipRanges);
  }

  predicate MatchesIn(content: string, ms: seq<Range>) {
    && (forall k :: 0 <= k < |ms| ==> ms[k].start + 1 < ms[k].end <= |content|)
    && (forall j, k :: 0 <= j < k < |ms| ==> ms[j].end <= ms[k].start)
  }

  /** The loop over the matches, and the text behind the last one. */
  method SegmentMatches(content: string, ms: seq<Range>, ps: seq<Participant>, lower: string -> string,
                        skipRanges: seq<Range>)
    returns (out: seq<Segment>)
    requires MatchesIn(content, ms) && (|skipRanges| <= 1 || Separated(skipRanges))
    requires forall index :: Covered(skipRanges, index) <==> Covered(RawRanges(content), index)
    ensures Joined(out) == content && Tidy(out) && Chips(out) == ChipsOf(content, ms, ps, lower)
  {
    EmptySegments();
    hide Covered, RawRanges, ChipOf, Resolve;
    out := [];
    var cursor: nat := 0;
    for i := 0 to |ms|
      invariant Sofar(out, content, cursor)
      invariant forall k :: i <= k < |ms| ==> cursor <= ms[k].start
      invariant Chips(out) == ChipsOf(content, ms[..i], ps, lower)
    {
      ChipsNext(content, ms, i, ps, lower);
      out, cursor := SegmentMatch(out, content, cursor, ms[i], ps, lower, skipRanges);
    }
    assert ms[..|ms|] == ms;
    out := WithText(out, content, cursor, |content|);
    assert content[..|content|] == content;
  }

  /** The segments up to `cursor`, which the next text may follow. */
  ghost predicate Sofar(out: seq<Segment>, content: string, cursor: nat) {
    && cursor <= |content| && Joined(out) == content[..cursor]
    && Tidy(out) && (out != [] ==> out[|out| - 1].Mention?)
  }

  /** One turn of segmentMentions: what the match adds, and the new cursor. */
  method SegmentMatch(out: seq<Segment>, content: string, cursor: nat, m: Range, ps: seq<Participant>,
                      lower: string -> string, skipRanges: seq<Range>)
    returns (more: seq<Segment>, next: nat)
    requires Sofar(out, content, cursor) && cursor <= m.start && m.start + 1 < m.end <= |content|
    requires |skipRanges| <= 1 || Separated(skipRanges)
    requires forall index :: Covered(skipRanges, index) <==> Covered(RawRanges(content), index)
    ensures Sofar(more, content, next) && next in {cursor, m.end}
    ensures Chips(more) == Chips(out) + ChipOf(content, m, ps, lower)
  {
    more, next := out, cursor;
    var inside := IsInCodeRange(m.start, skipRanges);
    if inside {
      return;
    }
    var resolved := Resolve(ps, content[m.start + 1..m.end], lower);
    if resolved == None {
      return;
    }
    ResolvedNamed(ps, content[m.start + 1..m.end], lower);
    more := WithMention(out, content, cursor, m, resolved.value);
    next := m.end;
  }

  /** Appends the text between two places, if there is any. */
  method WithText(out: seq<Segment>, content: string, cursor: nat, end: nat) returns (more: seq<Segment>)
    requires cursor <= end <= |content| && Sofar(out, content, cursor)
    ensures Joined(more) == content[..end] && Tidy(more) && Chips(more) == Chips(out)
  {
    more := out;
    if end > cursor {
      Appended(out, Text(content[cursor..end]));
      more := out + [Text(content[cursor..end])];
      assert content[..cursor] + content[cursor..end] == content[..end];
    } else {
      assert content[..cursor] == content[..end];
    }
  }

  /** Appends the text before a match, if there is any, and its mention. */
  method WithMention(out: seq<Segment>, content: string, cursor: nat, m: Range, p: Participant)
      returns (more: seq<Segment>)
    requires Sofar(out, content, cursor) && cursor <= m.start < m.end <= |content| && Named(p)
    ensures Sofar(more, content, m.end)
    ensures Chips(more) == Chips(out) + [Chip(m.start, content[m.start..m.end], p.name.value, p.agentId)]
  {
    var mention := Mention(content[m.start..m.end], p.name.value, p.agentId);
    more := WithText(out, content, cursor, m.start);
    Appended(more, mention);
    assert content[..m.start] + content[m.start..m.end] == content[..m.end];
    more := more + [mention];
  }

  lemma {:induction false} ResolvedNamed(ps: seq<Participant>, token: string, lower: string -> string)
    ensures var p := Resolve(ps, token, lower);
            p.Some? ==> p.value in ps && Named(p.value) && lower(p.value.name.value) == lower(token)
    decreases |ps|
  {
    if ps != [] {
      ResolvedNamed(ps[..|ps| - 1], token, lower);
    }
  }

  /** The chip comes from one of the matches. */
  ghost predicate FromMatch(content: string, ms: seq<Range>, ps: seq<Participant>, lower: string -> string, c: Chip)
    requires forall k :: 0 <= k < |ms| ==> ms[k].start + 1 < ms[k].end <= |content|
  {
    exists k :: 0 <= k < |ms| && c in ChipOf(content, ms[k], ps, lower)
  }

  lemma {:induction false} ChipsExact(content: string, ms: seq<Range>, ps: seq<Participant>, lower: string -> string,
      c: Chip)
    requires forall k :: 0 <= k < |ms| ==> ms[k].start + 1 < ms[k].end <= |content|
    ensures c in ChipsOf(content, ms, ps, lower) <==> FromMatch(content, ms, ps, lower, c)
    decreases |ms|
  {
    if ms != [] {
      var n := |ms| - 1;
      ChipsExact(content, ms[..n], ps, lower, c);
      hide ChipOf;
      assert c in ChipsOf(content, ms, ps, lower) <==>
             c in ChipsOf(content, ms[..n], ps, lower) || c in ChipOf(content, ms[n], ps, lower);
      hide ChipsOf;
      FromPrefix(content, ms, ps, lower, c);
    }
  }

  lemma FromPrefix(content: string, ms: seq<Range>, ps: seq<Participant>, lower: string -> string, c: Chip)
    requires ms != [] && forall k :: 0 <= k < |ms| ==> ms[k].start + 1 < ms[k].end <= |content|
    ensures var n := |ms| - 1;
            FromMatch(content, ms, ps, lower, c) <==>
            FromMatch(content, ms[..n], ps, lower, c) || c in ChipOf(content, ms[n], ps, lower)
  {
    hide ChipOf;
    var n := |ms| - 1;
    if FromMatch(content, ms[..n], ps, lower, c) {
      var k :| 0 <= k < n && c in ChipOf(content, ms[..n][k], ps, lower);
      assert c in ChipOf(content, ms[k], ps, lower);
    }
    if FromMatch(content, ms, ps, lower, c) {
      var k :| 0 <= k < |ms| && c in ChipOf(content, ms[k], ps, lower);
      assert k < n ==> c in ChipOf(content, ms[..n][k], ps, lower);
    }
  }

  /** What a chip stands for. */
  predicate Stands(content: string, ps: seq<Participant>, lower: string -> string, c: Chip) {
    && MentionEnd(content, c.start).Some? && !Covered(RawRanges(content), c.start)
    && (var token := content[c.start + 1..MentionEnd(content, c.start).value];
        var p := Resolve(ps, token, lower);
        p.Some? && Named(p.value) && c == Chip(c.start, "@" + token, p.value.name.value, p.value.agentId))
  }

  lemma ChipStands(content: string, m: Range, ps: seq<Participant>, lower: string -> string, c: Chip)
    requires MentionEnd(content, m.start) == Some(m.end)
    ensures c in ChipOf(content, m, ps, lower) <==> c.start == m.start && Stands(content, ps, lower, c)
  {
    assert content[m.start..m.end] == "@" + content[m.start + 1..m.end];
  }

  /** A chip stands exactly where the pattern matches, no code pattern does, and a participant has the name. */
  lemma ChipIffMention(content: string, ps: seq<Participant>, lower: string -> string, c: Chip)
    ensures c in Expected(content, ps, lower) <==> Stands(content, ps, lower, c)
  {
    var ms := Matches(content, 0);
    MatchesValid(content);
    ChipsExact(content, ms, ps, lower, c);
    if Stands(content, ps, lower, c) {
      MatchesComplete(content, 0, c.start);
      var k :| 0 <= k < |ms| && ms[k] == Range(c.start, MentionEnd(content, c.start).value);
      ChipStands(content, ms[k], ps, lower, c);
    }
    hide *;
    if exists k :: 0 <= k < |ms| && c in ChipOf(content, ms[k], ps, lower) {
      var k :| 0 <= k < |ms| && c in ChipOf(content, ms[k], ps, lower);
      ChipStands(content, ms[k], ps, lower, c);
    }
  }
}
