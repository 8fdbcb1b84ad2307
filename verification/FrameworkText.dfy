/** What stripping the integration block keeps of a framework file. */
module FrameworkText {
  import opened Options
  import opened Search
  import opened FrameworkBlock

  /** The first block of a text, with what stands before it, in it and behind it. */
  predicate Around(text: string, pre: string, mid: string, post: string) {
    && text == pre + BEGIN + mid + END + post
    && (forall i :: 0 <= i < |pre| ==> !OccursAt(text, BEGIN, i))
    && (forall i :: |pre + BEGIN| <= i < |pre + BEGIN + mid| ==> !OccursAt(text, END, i))
  }

  /** A text has a block exactly if it can be taken apart around one, which it can in one way only. */
  lemma Pieces(text: string)
    ensures HasBlock(text) <==> exists pre, mid, post :: Around(text, pre, mid, post)
    ensures forall pre, mid, post, pre', mid', post' ::
              Around(text, pre, mid, post) && Around(text, pre', mid', post')
              ==> pre == pre' && mid == mid' && post == post'
  {
    if HasBlock(text) {
      Parts(text);
    }
    forall pre, mid, post | Around(text, pre, mid, post)
      ensures HasBlock(text) && |pre| == IndexOf(text, BEGIN, 0).value && pre == text[..|pre|]
      ensures |pre + BEGIN + mid| == IndexOf(text, END, |pre + BEGIN|).value
      ensures mid == text[|pre + BEGIN|..|pre + BEGIN + mid|] && post == text[|pre + BEGIN + mid + END|..]
    {
      Placed(text, pre, mid, post);
    }
  }

  lemma Parts(text: string)
    requires HasBlock(text)
    ensures exists pre, mid, post :: Around(text, pre, mid, post)
  {
    var i := IndexOf(text, BEGIN, 0).value;
    var m := i + |BEGIN|;
    var j := IndexOf(text, END, m).value;
    var pre, mid, post := text[..i], text[m..j], text[j + |END|..];
    Apart(text, BEGIN, END, i, j);
    assert Around(text, pre, mid, post);
  }

  lemma Apart(text: string, b: string, e: string, i: nat, j: nat)
    requires OccursAt(text, b, i) && OccursAt(text, e, j) && i + |b| <= j
    ensures text == text[..i] + b + text[i + |b|..j] + e + text[j + |e|..]
    ensures |text[..i] + b| == i + |b| && |text[..i] + b + text[i + |b|..j]| == j
  {
    assert text == text[..i] + text[i..i + |b|] + text[i + |b|..j] + text[j..j + |e|] + text[j + |e|..];
  }

  lemma Placed(text: string, pre: string, mid: string, post: string)
    requires Around(text, pre, mid, post)
    ensures IndexOf(text, BEGIN, 0) == Some(|pre|) && IndexOf(text, END, |pre + BEGIN|) == Some(|pre + BEGIN + mid|)
    ensures text[..|pre|] == pre && text[|pre + BEGIN + mid + END|..] == post
    ensures text[|pre + BEGIN|..|pre + BEGIN + mid|] == mid
  {
    PlacedAround(text, BEGIN, END, pre, mid, post);
  }

  lemma PlacedAround(text: string, b: string, e: string, pre: string, mid: string, post: string)
    requires text == pre + b + mid + e + post
    requires forall i :: 0 <= i < |pre| ==> !OccursAt(text, b, i)
    requires forall i :: |pre + b| <= i < |pre + b + mid| ==> !OccursAt(text, e, i)
    ensures IndexOf(text, b, 0) == Some(|pre|) && IndexOf(text, e, |pre + b|) == Some(|pre + b + mid|)
    ensures text[..|pre|] == pre && text[|pre + b + mid + e|..] == post
    ensures text[|pre + b|..|pre + b + mid|] == mid
  {
    hide OccursAt, IndexOf;
    Regroup(pre, b, mid, e, post);
    Within(text, pre, b, mid + e + post);
    Within(text, pre + b, mid, e + post);
    Within(text, pre + b + mid, e, post);
    First(text, b, 0, |pre|);
    First(text, e, |pre + b|, |pre + b + mid|);
  }

  lemma Regroup(pre: string, b: string, mid: string, e: string, post: string)
    ensures pre + b + mid + e + post == pre + b + (mid + e + post)
    ensures pre + b + mid + e + post == pre + b + mid + (e + post)
  {
  }

  lemma Within(text: string, a: string, m: string, z: string)
    requires text == a + m + z
    ensures OccursAt(text, m, |a|) && text[..|a|] == a && text[|a|..|a + m|] == m && text[|a + m|..] == z
  {
  }

  lemma First(text: string, m: string, from: nat, i: nat)
    requires from <= i && OccursAt(text, m, i)
    requires forall k :: from <= k < i ==> !OccursAt(text, m, k)
    ensures IndexOf(text, m, from) == Some(i)
  {
  }

  /** Without the one line feed it may begin with. */
  function Unfed(s: string): string {
    if "\n" <= s then s[1..] else s
  }

  /** The characters that are no line feed, in order. */
  function Ink(s: string): string {
    if s == "" then "" else (if s[0] == '\n' then "" else [s[0]]) + Ink(s[1..])
  }

  /** Stripping takes the first block and one line feed behind it out of the file, shortens the runs of line
      feeds of what is left, and ends it with a line feed.  Everything else is kept. */
  lemma StripsBlock(content: string, pre: string, mid: string, post: string)
    requires Around(Unix(content), pre, mid, post)
    ensures var kept := Squeeze(pre + Unfed(post), 0);
            Strip(content) == if kept != "" && kept[|kept| - 1] == '\n' then kept else kept + "\n"
    ensures Ink(Strip(content)) == Ink(pre) + Ink(post)
  {
    CutAround(Unix(content), pre, mid, post);
    var kept := Squeeze(pre + Unfed(post), 0);
    InkKept(pre, post);
    hide Cut, HasBlock, Unix, Squeeze, Ink, Unfed, Around;
    assert Strip(content) == Closed(kept);
  }

  lemma CutAround(text: string, pre: string, mid: string, post: string)
    requires Around(text, pre, mid, post)
    ensures HasBlock(text) && Cut(text) == pre + Unfed(post)
  {
    Placed(text, pre, mid, post);
    Lengths(pre, BEGIN, mid, END);
    CutParts(text, |pre|, |pre + BEGIN + mid|);
    hide *;
    AfterBlock(text, |pre|, |pre + BEGIN + mid + END|, pre, post);
  }

  lemma Lengths(pre: string, b: string, mid: string, e: string)
    ensures |pre + b| == |pre| + |b| && |pre + b + mid + e| == |pre + b + mid| + |e|
  {
  }

  lemma CutParts(s: string, i: nat, j: nat)
    requires IndexOf(s, BEGIN, 0) == Some(i) && IndexOf(s, END, i + |BEGIN|) == Some(j)
    ensures HasBlock(s) && j + |END| <= |s|
    ensures Cut(s) == s[..i] + s[if j + |END| < |s| && s[j + |END|] == '\n' then j + |END| + 1 else j + |END|..]
  {
    Fits(s, END, i + |BEGIN|, j);
    hide OccursAt, IndexOf;
  }

  lemma Fits(s: string, m: string, from: nat, j: nat)
    requires IndexOf(s, m, from) == Some(j)
    ensures j + |m| <= |s|
  {
  }

  lemma AfterBlock(text: string, i: nat, j: nat, pre: string, post: string)
    requires i <= |text| && j <= |text| && text[..i] == pre && text[j..] == post
    ensures text[..i] + text[if j < |text| && text[j] == '\n' then j + 1 else j..] == pre + Unfed(post)
  {
    if j < |text| {
      assert text[j] == post[0] && text[j + 1..] == post[1..];
      assert "\n" <= post <==> post[0] == '\n';
    }
  }

  lemma InkKept(pre: string, post: string)
    ensures var kept := Squeeze(pre + Unfed(post), 0); Ink(kept) == Ink(kept + "\n") == Ink(pre) + Ink(post)
  {
    var kept := Squeeze(pre + Unfed(post), 0);
    assert Ink("\n") == "" by { assert "\n"[1..] == ""; }
    assert Ink(post) == Ink(Unfed(post));
    hide Ink, Unfed, Squeeze;
    SqueezeInk(pre + Unfed(post), 0);
    InkJoin(pre, Unfed(post));
    InkJoin(kept, "\n");
  }

  /** A file without a block is left as it is, its line endings included. */
  lemma StripsNothing(content: string)
    requires forall pre, mid, post :: !Around(Unix(content), pre, mid, post)
    ensures Strip(content) == content
  {
    Pieces(Unix(content));
  }

  // ---------------------------------------------------------------- line feeds

  function Feeds(n: nat): (r: string)
    ensures |r| == n && forall i :: 0 <= i < n ==> r[i] == '\n'
  {
    if n == 0 then "" else "\n" + Feeds(n - 1)
  }

  /** Squeeze shortens a run of line feeds to two and goes on behind it. */
  lemma SqueezeRun(a: string, n: nat, b: string)
    requires (a == "" || a[|a| - 1] != '\n') && (b == "" || b[0] != '\n')
    ensures Squeeze(a + Feeds(n) + b, 0) == Squeeze(a, 0) + Feeds(if n < 2 then n else 2) + Squeeze(b, 0)
  {
    assert a + Feeds(n) + b == a + (Feeds(n) + b);
    SqueezeFrom(a, 0, Feeds(n) + b);
    SqueezeFeeds(n, 0, b);
  }

  lemma {:induction false} SqueezeFrom(a: string, run: nat, t: string)
    requires a == "" ==> run == 0
    requires a == "" || a[|a| - 1] != '\n'
    ensures Squeeze(a + t, run) == Squeeze(a, run) + Squeeze(t, 0)
    decreases |a|
  {
    if a == "" {
      assert a + t == t;
    } else {
      assert (a + t)[0] == a[0] && (a + t)[1..] == a[1..] + t;
      SqueezeFrom(a[1..], if a[0] != '\n' then 0 else if run >= 2 then run else run + 1, t);
    }
  }

  lemma {:induction false} SqueezeFeeds(n: nat, run: nat, b: string)
    requires b == "" || b[0] != '\n'
    ensures Squeeze(Feeds(n) + b, run)
            == Feeds(if run >= 2 then 0 else if n < 2 - run then n else 2 - run) + Squeeze(b, 0)
    decreases n
  {
    var s := Feeds(n) + b;
    if n == 0 {
      assert s == b;
    } else {
      var next := if run >= 2 then run else run + 1;
      assert s[0] == '\n' && s[1..] == Feeds(n - 1) + b;
      assert Squeeze(s, run) == (if run >= 2 then "" else "\n") + Squeeze(Feeds(n - 1) + b, next);
      hide Squeeze;
      SqueezeFeeds(n - 1, next, b);
    }
  }

  /** A text without line feeds stays as it is. */
  lemma {:induction false} SqueezePlain(s: string)
    requires '\n' !in s
    ensures Squeeze(s, 0) == s
    decreases |s|
  {
    if s != "" {
      SqueezePlain(s[1..]);
    }
  }

  lemma {:induction false} SqueezeInk(s: string, run: nat)
    ensures Ink(Squeeze(s, run)) == Ink(s)
    decreases |s|
  {
    if s != "" {
      SqueezeInk(s[1..], if s[0] != '\n' then 0 else if run >= 2 then run else run + 1);
      assert Squeeze(s, run) != "" && Squeeze(s, run)[0] == s[0] ==>
        Squeeze(s, run)[1..] == Squeeze(s[1..], if s[0] != '\n' then 0 else run + 1) || run >= 2;
      if s[0] != '\n' {
        assert Squeeze(s, run)[1..] == Squeeze(s[1..], 0);
      } else if run < 2 {
        assert Squeeze(s, run)[1..] == Squeeze(s[1..], run + 1);
      }
    }
  }

  lemma {:induction false} InkJoin(a: string, b: string)
    ensures Ink(a + b) == Ink(a) + Ink(b)
    decreases |a|
  {
    if a == "" {
      assert a + b == b;
    } else {
      assert (a + b)[0] == a[0] && (a + b)[1..] == a[1..] + b;
      InkJoin(a[1..], b);
    }
  }

  /** No three line feeds in a row are left. */
  lemma {:induction false} NoThreeFeeds(s: string, run: nat, i: nat)
    requires run <= 2
    ensures var t := Feeds(run) + Squeeze(s, run);
            i + 2 < |t| ==> t[i] != '\n' || t[i + 1] != '\n' || t[i + 2] != '\n'
    decreases |s|
  {
    var t := Feeds(run) + Squeeze(s, run);
    if s == "" {
    } else if s[0] != '\n' {
      var rest := Squeeze(s[1..], 0);
      assert Squeeze(s, run) == [s[0]] + rest;
      hide Squeeze;
      if i > run {
        NoThreeFeeds(s[1..], 0, i - run - 1);
        assert Feeds(0) + rest == t[run + 1..];
      }
    } else if run == 2 {
      NoThreeFeeds(s[1..], run, i);
    } else {
      NoThreeFeeds(s[1..], run + 1, i);
      var rest := Squeeze(s[1..], run + 1);
      assert Squeeze(s, run) == "\n" + rest;
      hide Squeeze;
      assert t == Feeds(run + 1) + rest;
    }
  }

  // ---------------------------------------------------------------- line endings

  /** A carriage return and a line feed become a line feed, and a text without the two is unchanged. */
  lemma {:induction false} UnixEnding(a: string, b: string)
    ensures Unix(a + "\r\n" + b) == Unix(a) + "\n" + Unix(b)
    decreases |a|
  {
    hide Unix;
    UnixPair(b);
    var rest := "\r\n" + b;
    assert a + "\r\n" + b == a + rest;
    if a == "" {
      assert a + rest == rest;
      UnixOne("", "");
    } else if |a| >= 2 && a[0] == '\r' && a[1] == '\n' {
      assert a == "\r\n" + a[2..] && a + rest == "\r\n" + (a[2..] + rest);
      assert a[2..] + "\r\n" + b == a[2..] + rest;
      UnixPair(a[2..]);
      UnixPair(a[2..] + rest);
      UnixEnding(a[2..], b);
    } else {
      assert a == [a[0]] + a[1..] && a + rest == [a[0]] + (a[1..] + rest);
      assert a[1..] + "\r\n" + b == a[1..] + rest;
      UnixOne([a[0]], a[1..]);
      UnixOne([a[0]], a[1..] + rest);
      UnixEnding(a[1..], b);
    }
  }

  lemma UnixPair(t: string)
    ensures Unix("\r\n" + t) == "\n" + Unix(t)
  {
    assert ("\r\n" + t)[2..] == t;
  }

  lemma UnixOne(c: string, t: string)
    requires |c| <= 1 && (c == "\r" && t != "" ==> t[0] != '\n')
    ensures Unix(c + t) == c + Unix(t)
  {
    assert c == "" ==> c + t == t;
    assert c != "" ==> (c + t)[1..] == t;
  }

  lemma {:induction false} UnixPlain(s: string)
    requires forall i :: !EndingAt(s, i)
    ensures Unix(s) == s
    decreases |s|
  {
    if |s| >= 2 {
      assert !EndingAt(s, 0);
      var t := s[1..];
      forall i: nat ensures !EndingAt(t, i) {
        assert !EndingAt(s, i + 1);
      }
      UnixPlain(t);
    }
  }

  predicate EndingAt(s: string, i: nat) {
    i + 1 < |s| && s[i] == '\r' && s[i + 1] == '\n'
  }
}
