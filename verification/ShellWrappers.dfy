/** What counts as a shell wrapper, told without the classifier. */
module ShellWrappers {
  import opened Options
  import opened ShellCommand

  predicate Slash(c: char) { c == '/' || c == '\\' }

  function Lowered(s: string): string {
    if s == "" then "" else [Lower(s[0])] + Lowered(s[1..])
  }

  lemma {:induction false} PartsOf(s: string, last: string, part: string)
    requires forall i :: 0 <= i < |s| ==> !Slash(s[i])
    ensures LastPart(s, last, part) == if part + Lowered(s) == "" then last else part + Lowered(s)
    decreases |s|
  {
    if s != "" {
      PartsOf(s[1..], last, part + [Lower(s[0])]);
      assert part + [Lower(s[0])] + Lowered(s[1..]) == part + Lowered(s);
    } else {
      assert part + Lowered(s) == part;
    }
  }

  /** Slashes behind a name do not matter. */
  lemma {:induction false} SlashesBehind(s: string, tail: string, last: string, part: string)
    requires forall i :: 0 <= i < |tail| ==> Slash(tail[i])
    ensures LastPart(s + tail, last, part) == LastPart(s, last, part)
    decreases |s| + |tail|
  {
    var t := s + tail;
    if s != "" {
      assert t[0] == s[0] && t[1..] == s[1..] + tail;
      SlashesBehind(s[1..], tail, if Slash(s[0]) && part != "" then part else last,
                    if Slash(s[0]) then "" else part + [Lower(s[0])]);
    } else if tail != "" {
      assert t == tail;
      SlashesBehind("", tail[1..], if part == "" then last else part, "");
      assert "" + tail[1..] == tail[1..];
    } else {
      assert t == s;
    }
  }

  lemma {:induction false} DirectoryBefore(dir: string, name: string, last: string, part: string)
    requires dir != "" && Slash(dir[|dir| - 1]) && name != "" && forall i :: 0 <= i < |name| ==> !Slash(name[i])
    ensures LastPart(dir + name, last, part) == Lowered(name)
    decreases |dir|
  {
    var t := dir + name;
    assert t[0] == dir[0] && t[1..] == dir[1..] + name;
    if |dir| == 1 {
      assert t[1..] == name;
      PartsOf(name, if part == "" then last else part, "");
      assert "" + Lowered(name) == Lowered(name);
    } else {
      DirectoryBefore(dir[1..], name, if Slash(dir[0]) && part != "" then part else last,
                      if Slash(dir[0]) then "" else part + [Lower(dir[0])]);
    }
  }

  /** A command is known by the last part of its path, in lower case, wherever it lies. */
  lemma BasenameLast(dir: string, name: string, tail: string)
    requires dir == "" || Slash(dir[|dir| - 1])
    requires name != "" && (forall i :: 0 <= i < |name| ==> !Slash(name[i]))
    requires forall i :: 0 <= i < |tail| ==> Slash(tail[i])
    ensures CommandBasename(dir + name + tail) == Lowered(name)
  {
    SlashesBehind(dir + name, tail, "", "");
    if dir == "" {
      assert dir + name == name && "" + Lowered(name) == Lowered(name);
      PartsOf(name, "", "");
    } else {
      DirectoryBefore(dir, name, "", "");
    }
  }

  /** A shell with a flag for a command and a command that is there and not dynamic. */
  predicate Wrapping(tokens: seq<Token>) {
    && |tokens| >= 3 && CommandBasename(tokens[0].value) in {"sh", "bash", "zsh"}
    && tokens[1].value in {"-c", "-lc"} && tokens[2].value != "" && !tokens[2].dynamic
  }

  lemma ShellsRefused(tokens: seq<Token>)
    requires tokens != [] && CommandBasename(tokens[0].value) in {"sh", "bash", "zsh"}
    ensures CommandBasename(tokens[0].value) in MUTATING_OR_AMBIGUOUS_TOOLS
    ensures Inner(tokens) == if Wrapping(tokens) then Some(tokens[2].value) else None
  {
  }

  /** A shell never reaches the classifiers of the tools: a static command in it is looked through up to twice,
      and everything else is a mutation. */
  lemma ShellsExactly(command: string, depth: nat, tools: (string, seq<Token>) -> Classification)
    requires Tokenize(command).Tokens? && Tokenize(command).tokens != []
    requires var head := Tokenize(command).tokens[0];
        !head.dynamic && CommandBasename(head.value) in {"sh", "bash", "zsh"}
    ensures var tokens := Tokenize(command).tokens;
            Classify(command, depth, tools) ==
            if depth < 2 && Wrapping(tokens) then Classify(tokens[2].value, depth + 1, tools)
            else Unsupported(WriteOrMutation, CommandBasename(tokens[0].value))
  {
    ShellsRefused(Tokenize(command).tokens);
    hide Tokenize, CommandBasename, Inner, Wrapping;
  }

  /** Only a wrapper is stripped for display, whatever the command. */
  lemma StripsExactly(command: string)
    ensures StripDisplayWrapper(command) ==
            match Tokenize(command)
            case Tokens(tokens) =>
              if tokens != [] && !tokens[0].dynamic && Wrapping(tokens) then tokens[2].value else command
            case Refused(_) => command
  {
    hide Tokenize, CommandBasename;
  }
}
