/** Console command handling: what one tokenized input line asks for, and how the
    command-line arguments after `/c` are split into input lines. */
module Commands {
  import opened Text

  /** Python's `s[i:j]` for `0 <= i <= j`: both bounds are clamped to the length. */
  function Slice(s: string, i: nat, j: nat): (r: string)
    requires i <= j
    ensures |r| == (if j <= |s| then j - i else if i <= |s| then |s| - i else 0)
    ensures forall k :: 0 <= k < |r| ==> r[k] == s[i + k]
  {
    if j <= |s| then s[i..j] else if i <= |s| then s[i..] else []
  }

  /** A command word that is itself a URL: characters 0-3 are `http` and characters 4-6
      are `s:/` or `://`. */
  predicate IsBareUrl(command: string)
  {
    Slice(command, 0, 4) == "http" && (Slice(command, 4, 7) == "s:/" || Slice(command, 4, 7) == "://")
  }

  /** The bare-URL test holds exactly for words of at least seven characters that begin
      with `https:/` or `http://`. */
  lemma {:induction false} IsBareUrlMeaning(command: string)
    ensures IsBareUrl(command) <==>
      |command| >= 7 && (command[..7] == "https:/" || command[..7] == "http://")
  {
    if |command| >= 7 {
      assert command[..7] == command[0..4] + command[4..7];
      assert "https:/" == "http" + "s:/";
      assert "http://" == "http" + "://";
    }
  }

  /** What a tokenized input line asks for. */
  datatype Action =
    | Nothing
    | Redispatch(line: string)      // the tokens, re-quoted, as a `sub` command
    | Download(urls: seq<string>)
    | Quit
    | Unknown(notice: string)

  /** Each token wrapped in double quotes. */
  function Quoted(tokens: seq<string>): (r: seq<string>)
    ensures |r| == |tokens| && forall k :: 0 <= k < |tokens| ==> r[k] == Quote(tokens[k])
  {
    seq(|tokens|, k requires 0 <= k < |tokens| => Quote(tokens[k]))
  }

  /** The line a bare URL command is rewritten to. */
  function SubLine(tokens: seq<string>): string
  {
    "sub " + Join(" ", Quoted(tokens))
  }

  /** `proc_input` after tokenizing: nothing for no tokens; a bare URL first word re-runs
      every token (the first one unstripped) as `sub`; the download words download the
      other tokens; the quit words quit; any other word is reported, stripped. */
  function Dispatch(tokens: seq<string>): Action
  {
    if tokens == [] then Nothing
    else
      var command := Strip(tokens[0], WHITESPACE);
      if IsBareUrl(command) then Redispatch(SubLine(tokens))
      else if command in {"download", "sub", "subscribe"} then Download(tokens[1..])
      else if command in {"quit", "q", "exit"} then Quit
      else Unknown("Unknown command: '" + command + "'")
  }

  /** The dispatch table, case by case. */
  lemma {:induction false} DispatchCases(tokens: seq<string>)
    ensures tokens == [] <==> Dispatch(tokens).Nothing?
    ensures tokens != [] ==> var command := Strip(tokens[0], WHITESPACE);
      && (Dispatch(tokens).Redispatch? <==> IsBareUrl(command))
      && (Dispatch(tokens).Redispatch? ==> Dispatch(tokens).line == SubLine(tokens))
      && (Dispatch(tokens).Download? <==>
            command in {"download", "sub", "subscribe"})
      && (Dispatch(tokens).Download? ==> Dispatch(tokens).urls == tokens[1..])
      && (Dispatch(tokens).Quit? <==> command in {"quit", "q", "exit"})
      && (Dispatch(tokens).Unknown? ==>
            Dispatch(tokens).notice == "Unknown command: '" + command + "'")
  {
    if tokens != [] {
      var command := Strip(tokens[0], WHITESPACE);
      if IsBareUrl(command) {
        IsBareUrlMeaning(command);
        assert command[..4] == "http";
        assert command !in {"download", "sub", "subscribe"};
        assert command !in {"quit", "q", "exit"};
      }
    }
  }

  /** Each token quoted and preceded by one space, in order: the words after `sub`. */
  function Spaced(tokens: seq<string>): string
  {
    if tokens == [] then "" else " " + Quote(tokens[0]) + Spaced(tokens[1..])
  }

  /** A re-dispatched line is `sub` followed, for every token in order, by one space and
      the token in double quotes. */
  lemma {:induction false} SubLineSpaced(tokens: seq<string>)
    requires tokens != []
    ensures SubLine(tokens) == "sub" + Spaced(tokens)
  {
    JoinQuotedSpaced(tokens);
    assert "sub " == "sub" + " ";
    AppendAssoc("sub", " ", Join(" ", Quoted(tokens)));
  }

  /** Joining the quoted tokens with single spaces and putting one space in front gives
      every token quoted with a space before it. */
  lemma {:induction false} JoinQuotedSpaced(tokens: seq<string>)
    requires tokens != []
    ensures " " + Join(" ", Quoted(tokens)) == Spaced(tokens)
    decreases |tokens|
  {
    var q := Quoted(tokens);
    var head := Quote(tokens[0]);
    assert q[1..] == Quoted(tokens[1..]);
    if |tokens| == 1 {
      assert tokens[1..] == [];
      assert Spaced(tokens) == " " + head + "";
    } else {
      JoinQuotedSpaced(tokens[1..]);
      assert Join(" ", q) == head + " " + Join(" ", q[1..]);
      assert " " + Join(" ", q) == " " + head + (" " + Join(" ", Quoted(tokens[1..])));
    }
  }

  /** Number of occurrences of `x` in `s`. */
  function Count(s: seq<string>, x: string): nat
  {
    if s == [] then 0 else Count(s[..|s| - 1], x) + (if s[|s| - 1] == x then 1 else 0)
  }

  /** The run arguments split at each `*`: a `*` closes the current group and opens a new one. */
  function Groups(args: seq<string>): (gs: seq<seq<string>>)
    ensures |gs| >= 1
  {
    if args == [] then [[]]
    else
      var prev := Groups(args[..|args| - 1]);
      var x := args[|args| - 1];
      if x == "*" then prev + [[]]
      else prev[..|prev| - 1] + [prev[|prev| - 1] + [x]]
  }

  /** The groups joined back together with a `*` between neighbours. */
  function Rejoin(gs: seq<seq<string>>): seq<string>
    requires |gs| >= 1
  {
    if |gs| == 1 then gs[0] else Rejoin(gs[..|gs| - 1]) + ["*"] + gs[|gs| - 1]
  }

  /** Splitting at `*` gives one group more than there are `*`s. */
  lemma {:induction false} GroupsCount(args: seq<string>)
    ensures |Groups(args)| == Count(args, "*") + 1
  {
    if args != [] {
      GroupsCount(args[..|args| - 1]);
    }
  }

  /** No group contains a `*`. */
  lemma {:induction false} GroupsHaveNoStar(args: seq<string>)
    ensures forall k :: 0 <= k < |Groups(args)| ==> "*" !in Groups(args)[k]
  {
    if args != [] {
      var init := args[..|args| - 1];
      var x := args[|args| - 1];
      var prev := Groups(init);
      GroupsHaveNoStar(init);
      var gs := Groups(args);
      forall k | 0 <= k < |gs| ensures "*" !in gs[k] {
        if k < |prev| - 1 || (x == "*" && k == |prev| - 1) {
          assert gs[k] == prev[k];
        } else if x != "*" {
          assert gs[k] == prev[|prev| - 1] + [x];
        }
      }
    }
  }

  /** Re-joining the groups with `*` gives back the arguments, so with the two lemmas above
      the groups are the partition of the arguments at their `*`s. */
  lemma {:induction false} GroupsRejoin(args: seq<string>)
    ensures Rejoin(Groups(args)) == args
  {
    if args != [] {
      var init := args[..|args| - 1];
      var x := args[|args| - 1];
      var prev := Groups(init);
      GroupsRejoin(init);
      var gs := Groups(args);
      assert args == init + [x];
      if x == "*" {
        assert gs[..|gs| - 1] == prev;
        assert Rejoin(gs) == Rejoin(prev) + ["*"] + [];
      } else {
        var last := prev[|prev| - 1];
        if |prev| == 1 {
          assert Rejoin(gs) == last + [x];
        } else {
          var front := prev[..|prev| - 1];
          assert gs[..|gs| - 1] == front;
          assert Rejoin(gs) == Rejoin(front) + ["*"] + (last + [x]);
          assert Rejoin(prev) == Rejoin(front) + ["*"] + last;
          AppendAssoc(Rejoin(front) + ["*"], last, [x]);
        }
      }
    }
  }

  /** The input lines run for the groups: one per non-empty group, its quoted words
      joined by spaces, in order. */
  function RunLines(gs: seq<seq<string>>): (lines: seq<string>)
    ensures |lines| <= |gs|
  {
    if gs == [] then []
    else (if gs[0] == [] then [] else [Join(" ", Quoted(gs[0]))]) + RunLines(gs[1..])
  }

  /** Run lines distribute over concatenation of groups, so the lines keep group order. */
  lemma {:induction false} RunLinesAppend(a: seq<seq<string>>, b: seq<seq<string>>)
    ensures RunLines(a + b) == RunLines(a) + RunLines(b)
    decreases |a|
  {
    if a == [] {
      assert a + b == b;
    } else {
      assert (a + b)[0] == a[0] && (a + b)[1..] == a[1..] + b;
      RunLinesAppend(a[1..], b);
    }
  }

  /** One group gives no line when empty, and its quoted words joined by spaces otherwise. */
  lemma {:induction false} RunLinesOne(g: seq<string>)
    ensures RunLines([g]) == if g == [] then [] else [Join(" ", Quoted(g))]
  {
    assert [g][1..] == [];
  }

  /** With no argument other than `*`, every group is empty. */
  lemma {:induction false} GroupsOfStars(args: seq<string>)
    requires forall k :: 0 <= k < |args| ==> args[k] == "*"
    ensures forall k :: 0 <= k < |Groups(args)| ==> Groups(args)[k] == []
  {
    if args != [] {
      var init := args[..|args| - 1];
      assert forall k :: 0 <= k < |init| ==> init[k] == "*" by {
        forall k | 0 <= k < |init| ensures init[k] == "*" { assert init[k] == args[k]; }
      }
      GroupsOfStars(init);
    }
  }

  /** Empty groups run nothing. */
  lemma {:induction false} RunLinesOfEmpty(gs: seq<seq<string>>)
    requires forall k :: 0 <= k < |gs| ==> gs[k] == []
    ensures RunLines(gs) == []
  {
    if gs != [] {
      assert forall k :: 0 <= k < |gs[1..]| ==> gs[1..][k] == [] by {
        forall k | 0 <= k < |gs[1..]| ensures gs[1..][k] == [] { assert gs[1..][k] == gs[k + 1]; }
      }
      RunLinesOfEmpty(gs[1..]);
    }
  }

  /** A line lies in the run lines of `gs` exactly when it is the quoted join of some
      non-empty group. */
  lemma {:induction false} RunLinesMembers(gs: seq<seq<string>>, line: string)
    ensures line in RunLines(gs) <==> exists k :: 0 <= k < |gs| && gs[k] != [] && line == Join(" ", Quoted(gs[k]))
  {
    if gs != [] {
      var rest := gs[1..];
      RunLinesMembers(rest, line);
      if exists k :: 0 <= k < |gs| && gs[k] != [] && line == Join(" ", Quoted(gs[k])) {
        var k :| 0 <= k < |gs| && gs[k] != [] && line == Join(" ", Quoted(gs[k]));
        if k > 0 {
          assert rest[k - 1] == gs[k];
        }
      }
      if exists k :: 0 <= k < |rest| && rest[k] != [] && line == Join(" ", Quoted(rest[k])) {
        var k :| 0 <= k < |rest| && rest[k] != [] && line == Join(" ", Quoted(rest[k]));
        assert gs[k + 1] == rest[k];
      }
    }
  }

  /** The first loop of `excute_run_arguments`: builds the groups with every word quoted. */
  method SplitRunArguments(args: seq<string>) returns (subargs: seq<seq<string>>)
    ensures |subargs| == |Groups(args)|
    ensures forall k :: 0 <= k < |subargs| ==> subargs[k] == Quoted(Groups(args)[k])
  {
    subargs := [[]];
    var i := 0;
    while i < |args|
      invariant 0 <= i <= |args|
      invariant |subargs| == |Groups(args[..i])|
      invariant forall k :: 0 <= k < |subargs| ==> subargs[k] == Quoted(Groups(args[..i])[k])
    {
      var x := args[i];
      ghost var prev := Groups(args[..i]);
      assert args[..i + 1][..i] == args[..i];
      if x == "*" {
        subargs := subargs + [[]];
      } else {
        var last := subargs[|subargs| - 1] + [Quote(x)];
        assert last == Quoted(prev[|prev| - 1] + [x]);
        subargs := subargs[..|subargs| - 1] + [last];
      }
      i := i + 1;
    }
    assert args[..i] == args;
  }
}
