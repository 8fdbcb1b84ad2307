/** The integration block of a framework file, and what stripping it leaves. */
module FrameworkBlock {
  import opened Options
  import opened Search

  const BEGIN: string := "<!-- BEGIN FIRST-TREE-SOURCE-INTEGRATION -->"
  const END: string := "<!-- END FIRST-TREE-SOURCE-INTEGRATION -->"

  /** replaceAll("\r\n", "\n"). */
  function Unix(s: string): (r: string)
    ensures |r| <= |s|
  {
    if |s| < 2 then s
    else if s[0] == '\r' && s[1] == '\n' then "\n" + Unix(s[2..])
    else [s[0]] + Unix(s[1..])
  }

  /** replace(/\n{3,}/g, "\n\n"); `run` line feeds have just been kept. */
  function Squeeze(s: string, run: nat): (r: string)
    ensures |r| <= |s|
  {
    if s == "" then ""
    else if s[0] != '\n' then [s[0]] + Squeeze(s[1..], 0)
    else if run >= 2 then Squeeze(s[1..], run)
    else "\n" + Squeeze(s[1..], run + 1)
  }

  predicate HasBlock(s: string) {
    IndexOf(s, BEGIN, 0).Some? && IndexOf(s, END, IndexOf(s, BEGIN, 0).value + |BEGIN|).Some?
  }

  /** The text without its first block, and without the line feed behind it. */
  function Cut(s: string): (r: string)
    requires HasBlock(s)
    ensures |r| + |BEGIN| + |END| <= |s|
  {
    var i := IndexOf(s, BEGIN, 0).value;
    var j := IndexOf(s, END, i + |BEGIN|).value + |END|;
    s[..i] + s[if j < |s| && s[j] == '\n' then j + 1 else j..]
  }

  function Closed(s: string): string {
    if s != "" && s[|s| - 1] == '\n' then s else s + "\n"
  }

  /** stripFrameworkBlock, on the content of the file. */
  function Strip(content: string): string {
    var raw := Unix(content);
    if !HasBlock(raw) then content else Closed(Squeeze(Cut(raw), 0))
  }

  /** The file has no block, or none is left when its first one is cut out. */
  predicate OneBlock(content: string) {
    HasBlock(Unix(content)) ==> !HasBlock(Cut(Unix(content)))
  }

  // ---------------------------------------------------------------- line breaks do not matter to the markers

  predicate Break(c: char) { c == '\n' || c == '\r' }

  predicate Solid(m: string) {
    forall i :: 0 <= i < |m| ==> !Break(m[i])
  }

  lemma SolidMarkers()
    ensures Solid(BEGIN) && Solid(END) && BEGIN != "" && END != ""
  {
  }

  /** Every run of line breaks as a single line feed; `gap` when one has just been kept. */
  function Flat(s: string, gap: bool): string {
    if s == "" then ""
    else if Break(s[0]) then (if gap then "" else "\n") + Flat(s[1..], true)
    else [s[0]] + Flat(s[1..], false)
  }

  lemma {:induction false} FlatUnix(s: string, gap: bool)
    ensures Flat(Unix(s), gap) == Flat(s, gap)
    decreases |s|
  {
    if |s| >= 2 && s[0] == '\r' && s[1] == '\n' {
      FlatUnix(s[2..], true);
      assert Unix(s)[1..] == Unix(s[2..]) && s[1..][1..] == s[2..];
    } else if |s| >= 2 {
      FlatUnix(s[1..], Break(s[0]));
      assert Unix(s)[1..] == Unix(s[1..]);
    }
  }

  lemma {:induction false} FlatSqueeze(s: string, run: nat, gap: bool)
    requires run > 0 ==> gap
    ensures Flat(Squeeze(s, run), gap) == Flat(s, gap)
    decreases |s|
  {
    if s != "" {
      if s[0] != '\n' {
        FlatSqueeze(s[1..], 0, Break(s[0]));
        assert Squeeze(s, run)[1..] == Squeeze(s[1..], 0);
      } else if run >= 2 {
        FlatSqueeze(s[1..], run, true);
      } else {
        FlatSqueeze(s[1..], run + 1, true);
        assert Squeeze(s, run)[1..] == Squeeze(s[1..], run + 1);
      }
    }
  }

  /** What follows the first place where m is found. */
  function Rest(s: string, m: string): Option<string> {
    if m <= s then Some(s[|m|..]) else if s == "" then None else Rest(s[1..], m)
  }

  lemma {:induction false} RestIndex(s: string, m: string, from: nat)
    requires m != "" && from <= |s|
    ensures Rest(s[from..], m) == match IndexOf(s, m, from) case None => None case Some(i) => Some(s[i + |m|..])
    decreases |s| - from
  {
    assert m <= s[from..] <==> OccursAt(s, m, from);
    if OccursAt(s, m, from) {
      assert s[from..][|m|..] == s[from + |m|..];
    } else if from < |s| {
      RestIndex(s, m, from + 1);
      assert s[from..][1..] == s[from + 1..];
    }
  }

  /** There is an END behind the first BEGIN. */
  lemma BlockRest(s: string)
    ensures HasBlock(s) <==> Rest(s, BEGIN).Some? && Rest(Rest(s, BEGIN).value, END).Some?
  {
    RestIndex(s, BEGIN, 0);
    assert s[0..] == s;
    if IndexOf(s, BEGIN, 0).Some? {
      RestIndex(s, END, IndexOf(s, BEGIN, 0).value + |BEGIN|);
    }
  }

  lemma PrefixStep(s: string, m: string)
    requires s != "" && m != ""
    ensures m <= s <==> m[0] == s[0] && m[1..] <= s[1..]
    ensures m <= s ==> s[1..][|m| - 1..] == s[|m|..]
  {
    if m[0] == s[0] && m[1..] <= s[1..] {
      assert s == [s[0]] + s[1..] && m == [m[0]] + m[1..];
      assert s[1..][..|m| - 1] == s[1..|m|];
    }
  }

  /** A text without line breaks begins a text exactly if it begins the flat one. */
  lemma {:induction false} PrefixFlat(s: string, m: string)
    requires Solid(m)
    ensures m <= s <==> m <= Flat(s, false)
    ensures m <= s ==> Flat(s, false)[|m|..] == Flat(s[|m|..], false)
    decreases |m|
  {
    if m == "" || s == "" {
    } else if Break(s[0]) {
      assert Flat(s, false)[0] == '\n' && !Break(m[0]);
    } else {
      var f := Flat(s, false);
      assert f[0] == s[0] && f[1..] == Flat(s[1..], false);
      PrefixFlat(s[1..], m[1..]);
      PrefixStep(s, m);
      PrefixStep(f, m);
      hide Flat, Solid;
    }
  }

  lemma {:induction false} RestFlat(s: string, m: string, gap: bool)
    requires Solid(m) && m != ""
    ensures Rest(Flat(s, gap), m) == match Rest(s, m) case None => None case Some(t) => Some(Flat(t, false))
    decreases |s|
  {
    if s != "" {
      var f := Flat(s, gap);
      if Break(s[0]) {
        RestFlat(s[1..], m, true);
        assert f == (if gap then "" else "\n") + Flat(s[1..], true);
        assert !Break(m[0]) && !(m <= s);
        assert gap ==> f == Flat(s[1..], true);
        assert !gap ==> f[0] == '\n' && f[1..] == Flat(s[1..], true) && !(m <= f);
      } else {
        PrefixFlat(s, m);
        RestFlat(s[1..], m, false);
        assert f[1..] == Flat(s[1..], false);
      }
    }
  }

  lemma BlockFlat(s: string)
    ensures HasBlock(Flat(s, false)) <==> HasBlock(s)
  {
    SolidMarkers();
    BlockRest(s);
    BlockRest(Flat(s, false));
    hide *;
    RestFlat(s, BEGIN, false);
    if Rest(s, BEGIN).Some? {
      RestFlat(Rest(s, BEGIN).value, END, false);
    }
  }

  /** Texts that differ in the lengths of their runs of line breaks have blocks alike. */
  lemma BlockAlike(s: string, t: string)
    requires Flat(s, false) == Flat(t, false)
    ensures HasBlock(s) <==> HasBlock(t)
  {
    BlockFlat(s);
    BlockFlat(t);
  }

  lemma {:induction false} RestLine(s: string, m: string)
    requires Solid(m) && m != ""
    ensures Rest(s + "\n", m) == match Rest(s, m) case None => None case Some(t) => Some(t + "\n")
    decreases |s|
  {
    var line := s + "\n";
    assert m <= line <==> m <= s by {
      if m <= line && |m| == |line| {
        assert Break(m[|s|]);
      }
    }
    if m <= s {
      assert line[|m|..] == s[|m|..] + "\n";
    } else if s == "" {
      assert line[1..] == "" && Rest("", m) == None;
    } else {
      RestLine(s[1..], m);
      assert line[1..] == s[1..] + "\n";
    }
  }

  lemma BlockClosed(s: string)
    ensures HasBlock(Closed(s)) <==> HasBlock(s)
  {
    SolidMarkers();
    BlockRest(s);
    BlockRest(s + "\n");
    hide HasBlock, Rest, Solid;
    RestLine(s, BEGIN);
    if Rest(s, BEGIN).Some? {
      RestLine(Rest(s, BEGIN).value, END);
    }
  }

  /** Stripping twice is stripping once exactly for the files with at most one block. */
  lemma StripOnce(content: string)
    ensures Strip(Strip(content)) == Strip(content) <==> OneBlock(content)
  {
    var raw, once := Unix(content), Strip(content);
    if HasBlock(raw) {
      var rest := Squeeze(Cut(raw), 0);
      FlatSqueeze(Cut(raw), 0, false);
      BlockAlike(rest, Cut(raw));
      BlockClosed(rest);
      FlatUnix(once, false);
      BlockAlike(Unix(once), once);
      assert |BEGIN| > 1;
      assert HasBlock(Unix(once)) ==> |Strip(once)| < |once|;
    }
  }

  /** Two blocks: one is left after the first run, none after the second. */
  lemma TwoBlocks()
    ensures var s := BEGIN + END + (BEGIN + END);
            !OneBlock(s) && Strip(s) == BEGIN + END + "\n" && Strip(Strip(s)) == "\n"
  {
    var two := BEGIN + END;
    SolidMarkers();
    TwoSolid(BEGIN, END);
    assert two[0] == BEGIN[0];
    FirstBlock(two, two);
    FirstBlock(two, "\n");
    assert two + "" == two;
    FirstBlock(two, "");
    hide *;
    Doubled(two);
  }

  lemma Doubled(two: string)
    requires Solid(two) && HasBlock(two + two) && Cut(two + two) == two
    requires HasBlock(two) && Cut(two) == "" && HasBlock(two + "\n") && Cut(two + "\n") == ""
    ensures !OneBlock(two + two) && Strip(two + two) == two + "\n" && Strip(Strip(two + two)) == "\n"
  {
    TwoSolid(two, two);
    Quiet(two + two);
    Quiet(two);
    assert Squeeze("", 0) == "" && two != "";
    hide HasBlock, Cut, Unix, Squeeze;
    assert Closed(two) == two + "\n" by {
      assert !Break(two[|two| - 1]);
    }
  }

  lemma TwoSolid(a: string, b: string)
    requires Solid(a) && Solid(b)
    ensures Solid(a + b)
  {
  }

  /** A text without line breaks is left alone, also with a line feed at its end. */
  lemma {:induction false} Quiet(s: string)
    requires Solid(s)
    ensures Unix(s) == s == Squeeze(s, 0) && Unix(s + "\n") == s + "\n" == Squeeze(s + "\n", 0)
    decreases |s|
  {
    if s != "" {
      Quiet(s[1..]);
      assert (s + "\n")[1..] == s[1..] + "\n" && !Break(s[0]);
    } else {
      assert "" + "\n" == "\n" && "\n"[1..] == "";
    }
  }

  lemma FirstBlock(two: string, rest: string)
    requires two == BEGIN + END && (rest == "" || !Break(rest[0]) || rest == "\n")
    ensures var s := two + rest;
            HasBlock(s) && Cut(s) == if rest == "\n" then "" else rest
  {
    var s := two + rest;
    assert OccursAt(s, BEGIN, 0);
    assert s[|BEGIN|..|BEGIN| + |END|] == END;
    assert OccursAt(s, END, |BEGIN|);
  }
}
