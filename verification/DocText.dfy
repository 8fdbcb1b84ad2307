/**
 The whitespace-normalized view of a document: its text, the map from each of its
 characters back to the raw source, and what a slice of it is in the source.
 */
module DocText {
  /** The class \s of a JavaScript regular expression, which is also what trim() removes. */
  predicate IsSpace(c: char) {
    var n := c as int;
    9 <= n <= 13 || n in {32, 160, 0x1680, 0x2028, 0x2029, 0x202F, 0x205F, 0x3000, 0xFEFF} || 0x2000 <= n <= 0x200A
  }

  // ---------------------------------------------------------------- normalize

  /** raw.replace(/\s+/g, " "). */
  function Collapse(raw: string): string {
    if raw == "" then ""
    else
      var n := |raw| - 1;
      if !IsSpace(raw[n]) then Collapse(raw[..n]) + [raw[n]]
      else if n > 0 && IsSpace(raw[n - 1]) then Collapse(raw[..n])
      else Collapse(raw[..n]) + " "
  }

  function TrimStart(s: string): string {
    if s != "" && IsSpace(s[0]) then TrimStart(s[1..]) else s
  }

  function TrimEnd(s: string): string {
    if s != "" && IsSpace(s[|s| - 1]) then TrimEnd(s[..|s| - 1]) else s
  }

  function Normalize(raw: string): string {
    TrimEnd(TrimStart(Collapse(raw)))
  }

  // ---------------------------------------------------------------- normalizeWithMap

  datatype View = View(text: string, back: seq<nat>, pending: bool)

  /** The view after the characters of raw. */
  function Scan(raw: string): (v: View)
    ensures |v.back| == |v.text|
    decreases |raw|
  {
    if raw == "" then View("", [], false)
    else
      var n := |raw| - 1;
      var v := Scan(raw[..n]);
      if IsSpace(raw[n]) then v.(pending := |v.text| > 0)
      else if v.pending then View(v.text + [' ', raw[n]], v.back + [n, n], false)
      else View(v.text + [raw[n]], v.back + [n], false)
  }

  method NormalizeWithMap(raw: string) returns (text: string, back: seq<nat>)
    ensures text == Scan(raw).text == Normalize(raw)
    ensures back == Scan(raw).back
  {
    text, back := "", [];
    var pendingSpace := false;
    for i := 0 to |raw|
      invariant View(text, back, pendingSpace) == Scan(raw[..i])
    {
      assert raw[..i + 1][..i] == raw[..i];
      if IsSpace(raw[i]) {
        pendingSpace := |text| > 0;
        continue;
      }
      if pendingSpace {
        text := text + " ";
        back := back + [i];
        pendingSpace := false;
      }
      text := text + [raw[i]];
      back := back + [i];
    }
    assert raw[..|raw|] == raw;
    ScanNormalizes(raw);
  }

  /** Dropping at most one leading space: what TrimStart does to a collapsed string. */
  function Unled(s: string): string {
    if s != "" && s[0] == ' ' then s[1..] else s
  }

  /** A collapsed string has no two neighbouring spaces, and no space but ' '. */
  lemma {:induction false} CollapseSingle(raw: string)
    ensures forall i :: 0 <= i < |Collapse(raw)| && IsSpace(Collapse(raw)[i]) ==> Collapse(raw)[i] == ' '
    ensures forall i :: 0 <= i < |Collapse(raw)| - 1 && IsSpace(Collapse(raw)[i]) ==> !IsSpace(Collapse(raw)[i + 1])
    ensures raw != "" ==>
              && Collapse(raw) != ""
              && (IsSpace(raw[|raw| - 1]) <==> IsSpace(Collapse(raw)[|Collapse(raw)| - 1]))
    ensures raw != "" ==> (IsSpace(raw[0]) <==> IsSpace(Collapse(raw)[0]))
    decreases |raw|
  {
    if raw != "" {
      var n := |raw| - 1;
      CollapseSingle(raw[..n]);
      if n == 0 {
        assert Collapse(raw[..0]) == "";
      }
    }
  }

  lemma TrimStartUnled(s: string)
    requires forall i :: 0 <= i < |s| && IsSpace(s[i]) ==> s[i] == ' '
    requires forall i :: 0 <= i < |s| - 1 && IsSpace(s[i]) ==> !IsSpace(s[i + 1])
    ensures TrimStart(s) == Unled(s)
  {
  }

  lemma TrimEndPending(s: string)
    requires forall i :: 0 <= i < |s| - 1 && IsSpace(s[i]) ==> !IsSpace(s[i + 1])
    ensures TrimEnd(s) == if s != "" && IsSpace(s[|s| - 1]) then s[..|s| - 1] else s
  {
  }

  /** The view is the collapsed text without a leading space; its last space, if any, is pending. */
  ghost predicate Collapses(raw: string, v: View) {
    && Unled(Collapse(raw)) == v.text + (if v.pending then " " else "")
    && (v.text != "" ==> !IsSpace(v.text[|v.text| - 1]))
    && (v.text == "" ==> !v.pending)
    && (raw != "" && v.text != "" ==> (v.pending <==> IsSpace(raw[|raw| - 1])))
  }

  lemma {:induction false} ScanCollapses(raw: string)
    ensures Collapses(raw, Scan(raw))
    decreases |raw|
  {
    if raw != "" {
      var n := |raw| - 1;
      ScanCollapses(raw[..n]);
      CollapseSingle(raw[..n]);
      ScanLast(raw);
      CollapseLast(raw);
      hide Scan, Collapse;
      CollapsesNext(raw, Scan(raw[..n]), Scan(raw));
    }
  }

  /** One more character. */
  lemma CollapsesNext(raw: string, v: View, w: View)
    requires raw != "" && |v.text| == |v.back|
    requires var n := |raw| - 1;
             && Collapses(raw[..n], v)
             && w == (if IsSpace(raw[n]) then v.(pending := |v.text| > 0)
                      else if v.pending then View(v.text + [' ', raw[n]], v.back + [n, n], false)
                      else View(v.text + [raw[n]], v.back + [n], false))
             && Collapse(raw) == (if !IsSpace(raw[n]) then Collapse(raw[..n]) + [raw[n]]
                                  else if n > 0 && IsSpace(raw[n - 1]) then Collapse(raw[..n])
                                  else Collapse(raw[..n]) + " ")
             && (n > 0 ==>
                   var c := Collapse(raw[..n]); c != "" && (IsSpace(raw[n - 1]) <==> IsSpace(c[|c| - 1])))
             && (n == 0 ==> Collapse(raw[..n]) == "")
             && (forall i :: 0 <= i < |Collapse(raw[..n])| && IsSpace(Collapse(raw[..n])[i]) ==>
                   Collapse(raw[..n])[i] == ' ')
    ensures Collapses(raw, w)
  {
    hide Collapse;
    var n := |raw| - 1;
    var c := Collapse(raw[..n]);
    Regroup(v.text, "", raw[n]);
    Regroup(Unled(c), "", raw[n]);
    if c != "" {
      UnledAppend(c, [raw[n]]);
      UnledAppend(c, " ");
    }
  }

  lemma UnledAppend(c: string, d: string)
    requires c != ""
    ensures Unled(c + d) == Unled(c) + d
  {
  }

  lemma Regroup(t: string, c: string, x: char)
    ensures t + [' ', x] == t + " " + [x] && t + "" == t
    ensures t + (c + [x]) == t + c + [x] && t + (c + " ") == t + c + " "
  {
  }

  lemma ScanLast(raw: string)
    requires raw != ""
    ensures var n := |raw| - 1;
            var v := Scan(raw[..n]);
            Scan(raw) == if IsSpace(raw[n]) then v.(pending := |v.text| > 0)
                         else if v.pending then View(v.text + [' ', raw[n]], v.back + [n, n], false)
                         else View(v.text + [raw[n]], v.back + [n], false)
  {
  }

  lemma CollapseLast(r: string)
    requires r != ""
    ensures var n := |r| - 1;
            Collapse(r) == if !IsSpace(r[n]) then Collapse(r[..n]) + [r[n]]
                           else if n > 0 && IsSpace(r[n - 1]) then Collapse(r[..n])
                           else Collapse(r[..n]) + " "
    ensures |r| == 1 ==> Collapse(r[..|r| - 1]) == ""
  {
  }

  /** normalizeWithMap's text is what normalize computes. */
  lemma ScanNormalizes(raw: string)
    ensures Scan(raw).text == Normalize(raw)
  {
    CollapseSingle(raw);
    ScanCollapses(raw);
    TrimStartUnled(Collapse(raw));
    TrimEndPending(Unled(Collapse(raw)));
  }

  // ---------------------------------------------------------------- the map back

  /** The map back is total, points into the source, and never decreases.  It is strictly
      increasing but for one case: the space a run collapses to points, like the character
      after the run, at that character. */
  ghost predicate MapsBack(raw: string, v: View) {
    Points(raw, v) && Rises(v) && Edged(raw, v)
  }

  ghost predicate Points(raw: string, v: View) {
    && |v.back| == |v.text|
    && (forall i :: 0 <= i < |v.text| ==> v.back[i] < |raw|)
    && (forall i :: 0 <= i < |v.text| && !IsSpace(v.text[i]) ==> raw[v.back[i]] == v.text[i])
    && (forall i :: 0 <= i < |v.text| && IsSpace(v.text[i]) ==> 0 < v.back[i] && IsSpace(raw[v.back[i] - 1]))
  }

  ghost predicate Rises(v: View) {
    && |v.back| == |v.text|
    && (forall i :: 0 <= i < |v.text| - 1 ==>
          if IsSpace(v.text[i]) then v.back[i] == v.back[i + 1] else v.back[i] < v.back[i + 1])
  }

  ghost predicate Edged(raw: string, v: View) {
    && (forall i :: 0 <= i < |v.text| && IsSpace(v.text[i]) ==>
          v.text[i] == ' ' && i + 1 < |v.text| && !IsSpace(v.text[i + 1]))
    && (v.text != "" ==> !IsSpace(v.text[0]) && !IsSpace(v.text[|v.text| - 1]))
    && (v.pending ==> raw != "" && IsSpace(raw[|raw| - 1]) && v.text != "")
  }

  /** The view after one more character. */
  ghost predicate Follows(raw: string, v: View, w: View) {
    && raw != "" && |v.text| == |v.back|
    && (var n := |raw| - 1;
        w == if IsSpace(raw[n]) then v.(pending := |v.text| > 0)
             else if v.pending then View(v.text + [' ', raw[n]], v.back + [n, n], false)
             else View(v.text + [raw[n]], v.back + [n], false))
  }

  lemma {:induction false} BackMap(raw: string)
    ensures MapsBack(raw, Scan(raw))
    decreases |raw|
  {
    if raw != "" {
      BackMap(raw[..|raw| - 1]);
      ScanLast(raw);
      hide Scan, IsSpace;
      PointsNext(raw, Scan(raw[..|raw| - 1]), Scan(raw));
      RisesNext(raw, Scan(raw[..|raw| - 1]), Scan(raw));
      EdgedNext(raw, Scan(raw[..|raw| - 1]), Scan(raw));
    }
  }

  lemma PointsNext(raw: string, v: View, w: View)
    requires Follows(raw, v, w) && Points(raw[..|raw| - 1], v) && Edged(raw[..|raw| - 1], v)
    ensures Points(raw, w)
  {
    assert IsSpace(' ');
    hide IsSpace;
  }

  lemma RisesNext(raw: string, v: View, w: View)
    requires Follows(raw, v, w) && Points(raw[..|raw| - 1], v) && Rises(v) && Edged(raw[..|raw| - 1], v)
    ensures Rises(w)
  {
    assert IsSpace(' ');
    hide IsSpace;
  }

  lemma EdgedNext(raw: string, v: View, w: View)
    requires Follows(raw, v, w) && Edged(raw[..|raw| - 1], v)
    ensures Edged(raw, w)
  {
    assert IsSpace(' ');
    hide IsSpace;
  }

  /** Strict monotonicity fails on every source with a space between two words. */
  lemma BackMapNotStrict()
    ensures Scan("a b").text == "a b" && Scan("a b").back == [0, 2, 2]
  {
    assert "a b"[..2] == "a " && "a "[..1] == "a" && "a"[..0] == "";
    assert Scan("a") == View("a", [0], false);
    assert Scan("a ") == View("a", [0], true);
  }

  /** Reading on only appends. */
  lemma {:induction false} ScanPrefix(raw: string, n: nat)
    requires n <= |raw|
    ensures Scan(raw[..n]).text <= Scan(raw).text && Scan(raw[..n]).back <= Scan(raw).back
    decreases |raw| - n
  {
    if n == |raw| {
      assert raw[..n] == raw;
    } else {
      ScanPrefix(raw, n + 1);
      assert raw[..n + 1][..n] == raw[..n];
    }
  }

  /** Reading up to raw[k] yields text[..i + 1], and before it text[..i] with the space that is pending. */
  predicate Yields(raw: string, k: nat, text: string, i: nat) {
    && k < |raw| && i < |text| && Scan(raw[..k + 1]).text == text[..i + 1]
    && Scan(raw[..k]).text + (if Scan(raw[..k]).pending then " " else "") == text[..i]
  }

  /** Where the view of the source up to and including a non-space character ends. */
  lemma {:induction false} ScanAt(raw: string, i: nat)
    requires i < |Scan(raw).text| && !IsSpace(Scan(raw).text[i])
    ensures Yields(raw, Scan(raw).back[i], Scan(raw).text, i)
    decreases |raw|
  {
    assert raw != "";
    hide Scan, IsSpace, Yields;
    var n := |raw| - 1;
    var v, w := Scan(raw[..n]), Scan(raw);
    if i < |v.text| {
      ScanPrefix(raw, n);
      assert v.text[i] == w.text[i] && v.back[i] == w.back[i];
      ScanAt(raw[..n], i);
      YieldsLater(raw, n, v.back[i], v.text, w.text, i);
    } else {
      ScanAtLast(raw, i);
    }
  }

  lemma YieldsLater(raw: string, n: nat, k: nat, text: string, more: string, i: nat)
    requires n <= |raw| && text <= more && i < |text| && Yields(raw[..n], k, text, i)
    ensures Yields(raw, k, more, i)
  {
    hide Scan;
    assert raw[..n][..k + 1] == raw[..k + 1] && raw[..n][..k] == raw[..k];
    assert text[..i + 1] == more[..i + 1] && text[..i] == more[..i];
  }

  lemma ScanAtLast(raw: string, i: nat)
    requires raw != "" && |Scan(raw[..|raw| - 1]).text| <= i < |Scan(raw).text| && !IsSpace(Scan(raw).text[i])
    ensures Yields(raw, Scan(raw).back[i], Scan(raw).text, i)
  {
    ScanLast(raw);
    hide Scan;
    assert raw[..|raw|] == raw && i + 1 == |Scan(raw).text|;
  }

  /** From a non-space character on, the view of the rest of the source is the rest of the view. */
  lemma {:induction false} ScanFrom(raw: string, a: nat)
    requires a < |raw| && !IsSpace(raw[a])
    ensures var s := |Scan(raw[..a + 1]).text| - 1;
            0 <= s < |Scan(raw).text| && Scan(raw[a..]).text == Scan(raw).text[s..]
            && Scan(raw[a..]).pending == Scan(raw).pending
    decreases |raw|
  {
    var n := |raw| - 1;
    ScanLast(raw);
    if a == n {
      ScanFromLast(raw);
    } else {
      hide Scan, IsSpace;
      ScanFrom(raw[..n], a);
      var r := raw[a..];
      assert raw[..n][..a + 1] == raw[..a + 1] && raw[..n][a..] == r[..|r| - 1] && r[|r| - 1] == raw[n];
      ScanLast(r);
      SuffixNext(Scan(raw[..n]), Scan(raw[..n][a..]), |Scan(raw[..a + 1]).text| - 1, raw[n]);
    }
  }

  lemma ScanFromLast(raw: string)
    requires raw != "" && !IsSpace(raw[|raw| - 1])
    ensures var a := |raw| - 1;
            var s := |Scan(raw[..a + 1]).text| - 1;
            0 <= s < |Scan(raw).text| && Scan(raw[a..]).text == Scan(raw).text[s..]
            && Scan(raw[a..]).pending == Scan(raw).pending
  {
    var a := |raw| - 1;
    assert raw[..a + 1] == raw && raw[a..] == [raw[a]] && raw[a..][..0] == "";
    ScanLast(raw);
    ScanLast(raw[a..]);
  }

  /** Appending to a text appends to its suffixes. */
  lemma SuffixNext(v: View, u: View, s: nat, x: char)
    requires s < |v.text| && u.text == v.text[s..]
    ensures u.text + [x] == (v.text + [x])[s..] && u.text + [' ', x] == (v.text + [' ', x])[s..] && u.text != ""
  {
  }

  /** A slice of the view that begins and ends with a character is the normal form of the raw
      text between the two places it maps back to. */
  lemma SliceBack(raw: string, s: nat, e: nat)
    requires s < e <= |Scan(raw).text|
    requires !IsSpace(Scan(raw).text[s]) && !IsSpace(Scan(raw).text[e - 1])
    ensures var v := Scan(raw);
            && v.back[s] < v.back[e - 1] + 1 <= |raw|
            && Normalize(raw[v.back[s]..v.back[e - 1] + 1]) == v.text[s..e]
  {
    hide *;
    var v := Scan(raw);
    var last := e - 1;
    var a, b := v.back[s], v.back[last] + 1;
    CharBack(raw, s);
    CharBack(raw, last);
    BackOrder(raw, s, last);
    ScanUpTo(raw, s, s + 1, a + 1);
    ScanUpTo(raw, last, e, b);
    SliceOfView(raw, a, b, v.text, s, e);
  }

  lemma ScanUpTo(raw: string, i: nat, e: nat, b: nat)
    requires i < |Scan(raw).text| && !IsSpace(Scan(raw).text[i]) && e == i + 1 && b == Scan(raw).back[i] + 1
    ensures b <= |raw| && Scan(raw[..b]).text == Scan(raw).text[..e]
  {
    ScanAt(raw, i);
  }

  lemma CharBack(raw: string, i: nat)
    requires i < |Scan(raw).text| && !IsSpace(Scan(raw).text[i])
    ensures Scan(raw).back[i] < |raw| && raw[Scan(raw).back[i]] == Scan(raw).text[i]
  {
    BackMap(raw);
  }

  lemma SliceOfView(raw: string, a: nat, b: nat, text: string, s: nat, e: nat)
    requires a < b <= |raw| && s < e <= |text| && !IsSpace(raw[a])
    requires Scan(raw[..a + 1]).text == text[..s + 1] && Scan(raw[..b]).text == text[..e]
    ensures Normalize(raw[a..b]) == text[s..e]
  {
    hide *;
    assert raw[..b][..a + 1] == raw[..a + 1] && raw[..b][a..] == raw[a..b];
    ScanFrom(raw[..b], a);
    ScanNormalizes(raw[a..b]);
  }

  lemma {:induction false} BackOrder(raw: string, i: nat, j: nat)
    requires i <= j < |Scan(raw).text|
    ensures Scan(raw).back[i] <= Scan(raw).back[j]
    decreases j
  {
    BackMap(raw);
    if i < j {
      BackOrder(raw, i, j - 1);
    }
  }

  /** Normalizing twice changes nothing. */
  lemma NormalizeIdempotent(raw: string)
    ensures Normalize(Normalize(raw)) == Normalize(raw)
  {
    ScanNormalizes(raw);
    BackMap(raw);
    TidyScan(Normalize(raw));
    ScanNormalizes(Normalize(raw));
  }

  /** A text that is normal already is its own view. */
  lemma {:induction false} TidyScan(s: string)
    requires s == "" || !IsSpace(s[0])
    requires forall i :: 0 <= i < |s| - 1 && IsSpace(s[i]) ==> s[i] == ' ' && !IsSpace(s[i + 1])
    ensures var v := Scan(s);
            if s != "" && IsSpace(s[|s| - 1]) then v.text == s[..|s| - 1] && v.pending else v.text == s && !v.pending
    decreases |s|
  {
    if s != "" {
      TidyScan(s[..|s| - 1]);
    }
  }
}
