/** The program's mutable state (the busy flag, the console, the filesystem and the tool
    launches) and the operations that change it: `download`, `deploy_all`, `proc_input`
    and `excute_run_arguments`. Each method is tied to a function over `PState`. */
module Pipeline {
  import opened Wrappers
  import opened Text
  import opened Workshop
  import opened SteamCmd
  import opened Deploy
  import Commands

  /** What the n-th launch of the download tool does: the lines it prints, each with
      whether it has exited once that line is read, and the paths it writes. */
  datatype ToolRun = ToolRun(script: seq<Step>, written: set<Path>)

  /** The settings the pipeline runs with. */
  datatype Config = Config(exe: string, login: Option<string>, passw: Option<string>,
                           contentRoot: Path, downloadsRoot: Path)

  /** Start-up: credentials pass the length gate, the content folder lies under the Steam
      folder and items are deployed under `downloads`. `exe` is the tool's path. */
  function Configure(username: string, password: string, steamRoot: Path, exe: string): (c: Config)
    ensures (c.login, c.passw) == CredentialGate(username, password)
    ensures c.login.Some? <==> |username| >= 4
    ensures c.passw.Some? <==> |password| >= 4
    ensures c.login.Some? ==> c.login.value == username
    ensures c.passw.Some? ==> c.passw.value == password
    ensures c.contentRoot == steamRoot + ["steamapps", "workshop", "content"]
    ensures c.downloadsRoot == ["downloads"] && c.exe == exe
  {
    var g := CredentialGate(username, password);
    Config(exe, g.0, g.1, steamRoot + ["steamapps", "workshop", "content"], ["downloads"])
  }

  /** The busy flag, the texts pushed to the console, the existing paths and every argument
      vector the tool was launched with. */
  datatype PState = PState(running: bool, output: seq<string>, fs: set<Path>, launches: seq<seq<string>>)

  /** How an input line ends: carry on, the program quits, or a copy error escapes. */
  datatype Status = Continue | Exit | Crash(path: Path)

  /** The comprehension at the top of `download`: outer double quotes removed from each URL. */
  function StripAll(urls: seq<string>): (r: seq<string>)
    ensures |r| == |urls| && forall k :: 0 <= k < |urls| ==> r[k] == StripQuotes(urls[k])
  {
    seq(|urls|, k requires 0 <= k < |urls| => StripQuotes(urls[k]))
  }

  /** What the pages and the tool must do for a download to complete: every fetched page
      names its items, and the next launch of the tool ends. */
  ghost predicate CanDownload(s: PState, urls: seq<string>, net: string -> Fetch, runs: nat -> ToolRun)
  {
    AllResolvable(StripAll(urls), net) && RunEnds(Reads(runs(|s.launches|).script))
  }

  /** `download(urls)`: nothing while busy or for an empty list; a list that resolves to no
      item reports so; otherwise the tool is launched under the lock with the batch, its
      output forwarded, and the batch deployed after the lock is released. */
  function DownloadSpec(s: PState, cfg: Config, urls: seq<string>, net: string -> Fetch, runs: nat -> ToolRun): (r: (PState, Outcome<Path>))
    requires !s.running ==> CanDownload(s, urls, net, runs)
    ensures r.0.running == s.running && s.output <= r.0.output
  {
    if s.running then (s, Pass)
    else
      var cleaned := StripAll(urls);
      var resolved := Resolve(cleaned, net);
      var items := resolved.0;
      if cleaned == [] then (s, Pass)
      else if items == [] then
        (s.(output := s.output + resolved.1 + ["Requesting a download with no urls"]), Pass)
      else
        var run := runs(|s.launches|);
        var args := ArgVector(cfg.exe, cfg.login, cfg.passw, items);
        var out := s.output + resolved.1 + ["Started " + NatToString(|items|) + " Download(s)"]
                   + RequestNotices(items) + Transcript(Reads(run.script));
        var deployed := DeployAll(s.fs + run.written, Wrap(items), cfg.contentRoot, cfg.downloadsRoot);
        (PState(false, out, deployed.0, s.launches + [args]), deployed.1)
  }

  /** A download loses no path and no earlier launch, and launches the tool at most once. */
  lemma {:induction false} DownloadFrame(s: PState, cfg: Config, urls: seq<string>, net: string -> Fetch, runs: nat -> ToolRun)
    requires !s.running ==> CanDownload(s, urls, net, runs)
    ensures var r := DownloadSpec(s, cfg, urls, net, runs).0;
      s.fs <= r.fs && s.launches <= r.launches && |r.launches| <= |s.launches| + 1
  {
    if !s.running {
      var items := Resolve(StripAll(urls), net).0;
      var run := runs(|s.launches|);
      DeployAllGrows(s.fs + run.written, Wrap(items), cfg.contentRoot, cfg.downloadsRoot);
    }
  }

  /** The tool is launched exactly when the flag is clear and the batch holds an item, and
      then once, with the vector built from that batch. */
  lemma {:induction false} DownloadLaunch(s: PState, cfg: Config, urls: seq<string>, net: string -> Fetch, runs: nat -> ToolRun)
    requires !s.running ==> CanDownload(s, urls, net, runs)
    ensures s.running ==> DownloadSpec(s, cfg, urls, net, runs) == (s, Pass)
    ensures !s.running ==> var r := DownloadSpec(s, cfg, urls, net, runs).0;
      var batch := Batch(StripAll(urls), net);
      && (r.launches != s.launches <==> batch.Some? && batch.value != [])
      && (r.launches != s.launches ==>
            r.launches == s.launches + [ArgVector(cfg.exe, cfg.login, cfg.passw, batch.value)])
  {
    if !s.running {
      var r := DownloadSpec(s, cfg, urls, net, runs).0;
      var batch := Batch(StripAll(urls), net);
      if batch.Some? && batch.value != [] {
        var args := ArgVector(cfg.exe, cfg.login, cfg.passw, batch.value);
        assert r.launches == s.launches + [args];
        assert |r.launches| == |s.launches| + 1;
      }
    }
  }

  /** What a download with the flag clear pushes and leaves behind. An empty list changes
      nothing; a list that yields no item adds the resolution diagnostics and one notice;
      otherwise the output gains the diagnostics, the start notice, one request notice per
      item, and the read loop's texts up to and including the stopping line, the flag is
      clear again, no path is lost, and after a successful deployment every item's app
      folder exists. */
  lemma {:induction false} DownloadOutput(s: PState, cfg: Config, urls: seq<string>, net: string -> Fetch, runs: nat -> ToolRun)
    requires !s.running && CanDownload(s, urls, net, runs)
    ensures var r := DownloadSpec(s, cfg, urls, net, runs);
      var res := Resolve(StripAll(urls), net);
      && (urls == [] ==> r == (s, Pass))
      && (urls != [] && res.0 == [] ==>
            r == (s.(output := s.output + res.1 + ["Requesting a download with no urls"]), Pass))
      && (res.0 != [] ==>
            var run := runs(|s.launches|);
            var rs := Reads(run.script);
            var k := StopIndex(rs);
            && r.0.output == s.output + res.1 + ["Started " + NatToString(|res.0|) + " Download(s)"]
                             + RequestNotices(res.0) + Forwarded(rs[..k]) + [FinalText(rs[k])]
            && !r.0.running && s.fs + run.written <= r.0.fs
            && (r.1.Pass? ==> forall j :: 0 <= j < |res.0| ==> AppDir(cfg.downloadsRoot, res.0[j]) in r.0.fs))
  {
    var res := Resolve(StripAll(urls), net);
    var items := res.0;
    if items != [] {
      var run := runs(|s.launches|);
      var rs := Reads(run.script);
      var wrapped := Wrap(items);
      var deployed := DeployAll(s.fs + run.written, wrapped, cfg.contentRoot, cfg.downloadsRoot);
      TranscriptClosedForm(rs);
      DeployAllGrows(s.fs + run.written, wrapped, cfg.contentRoot, cfg.downloadsRoot);
      if deployed.1.Pass? {
        forall j | 0 <= j < |items| ensures AppDir(cfg.downloadsRoot, items[j]) in deployed.0 {
          DeployAllMakesAppDirs(s.fs + run.written, wrapped, j, cfg.contentRoot, cfg.downloadsRoot);
        }
      }
    }
  }

  /** End to end, for a single URL whose page lists items: one launch whose download
      arguments name, in document order, the app id and item id read from each match. */
  lemma {:induction false} PageToArguments(s: PState, cfg: Config, url: string, net: string -> Fetch, runs: nat -> ToolRun)
    requires !s.running && CanDownload(s, [url], net, runs)
    requires var f := net(StripQuotes(url)); |StripQuotes(url)| > 0 && f.Fetched? && f.page.matches != []
    ensures var r := DownloadSpec(s, cfg, [url], net, runs).0;
      var ms := net(StripQuotes(url)).page.matches;
      && |r.launches| == |s.launches| + 1
      && var v := r.launches[|s.launches|];
      && |v| == |ms| + 3 && v[0] == cfg.exe && v[1] == LoginArg(cfg.login, cfg.passw)
      && v[|v| - 1] == "+quit"
      && forall k :: 0 <= k < |ms| ==>
           ParseDownloadArg(v[k + 2]) == Some((ParseDigits(ms[k].appDigits), ParseDigits(ms[k].itemDigits)))
  {
    var u := StripQuotes(url);
    var f := net(u);
    SingleBatch(url, net);
    var items := Extract(u, f).0;
    PageVector(cfg, u, f);
    DownloadLaunch(s, cfg, [url], net, runs);
    var r := DownloadSpec(s, cfg, [url], net, runs).0;
    assert r.launches == s.launches + [ArgVector(cfg.exe, cfg.login, cfg.passw, items)];
  }

  /** The vector built from one page's items names each match's ids, in document order. */
  lemma {:induction false} PageVector(cfg: Config, u: string, f: Fetch)
    requires Resolvable(f) && f.Fetched? && f.page.matches != []
    ensures |Extract(u, f).0| == |f.page.matches|
    ensures var ms := f.page.matches;
      var v := ArgVector(cfg.exe, cfg.login, cfg.passw, Extract(u, f).0);
      && |v| == |ms| + 3 && v[0] == cfg.exe && v[1] == LoginArg(cfg.login, cfg.passw)
      && v[|v| - 1] == "+quit"
      && forall k :: 0 <= k < |ms| ==>
           ParseDownloadArg(v[k + 2]) == Some((ParseDigits(ms[k].appDigits), ParseDigits(ms[k].itemDigits)))
  {
    ExtractShape(u, f);
    ArgVectorShape(cfg.exe, cfg.login, cfg.passw, Extract(u, f).0);
  }

  /** A single URL's batch is what its page yields. */
  lemma {:induction false} SingleBatch(url: string, net: string -> Fetch)
    requires AllResolvable(StripAll([url]), net) && |StripQuotes(url)| > 0
    ensures Resolvable(net(StripQuotes(url)))
    ensures Batch(StripAll([url]), net) == Some(Extract(StripQuotes(url), net(StripQuotes(url))).0)
  {
    var u := StripQuotes(url);
    assert StripAll([url]) == [u];
    assert [u][0] == u;
    ResolveSingle(u, net);
  }

  /** URLs are deployed as given whether or not they arrive wrapped in double quotes. */
  lemma {:induction false} DownloadIgnoresQuotes(s: PState, cfg: Config, urls: seq<string>, net: string -> Fetch, runs: nat -> ToolRun)
    requires forall k :: 0 <= k < |urls| ==> urls[k] == [] || (urls[k][0] != '"' && urls[k][|urls[k]| - 1] != '"')
    requires !s.running ==> CanDownload(s, urls, net, runs)
    ensures !s.running ==> CanDownload(s, Commands.Quoted(urls), net, runs)
    ensures DownloadSpec(s, cfg, Commands.Quoted(urls), net, runs) == DownloadSpec(s, cfg, urls, net, runs)
  {
    var q := Commands.Quoted(urls);
    assert StripAll(q) == StripAll(urls) by {
      forall k | 0 <= k < |urls| ensures StripAll(q)[k] == StripAll(urls)[k] {
        StripQuotesOfQuote(urls[k]);
        StripQuotesOfUnquoted(urls[k]);
      }
    }
  }

  /** A URL with no quote at either end is left alone. */
  lemma {:induction false} StripQuotesOfUnquoted(t: string)
    requires t == [] || (t[0] != '"' && t[|t| - 1] != '"')
    ensures StripQuotes(t) == t
  {
  }

  /** `proc_input` on an action that is not a re-dispatch. */
  function ActSpec(s: PState, cfg: Config, a: Commands.Action, net: string -> Fetch, runs: nat -> ToolRun): (r: (PState, Status))
    requires !a.Redispatch?
    requires a.Download? && !s.running ==> CanDownload(s, a.urls, net, runs)
    ensures r.0.running == s.running && s.output <= r.0.output
    ensures !a.Download? ==> r.0.fs == s.fs && r.0.launches == s.launches
  {
    match a
    case Nothing => (s, Continue)
    case Download(urls) =>
      var d := DownloadSpec(s, cfg, urls, net, runs);
      (d.0, if d.1.Fail? then Crash(d.1.error) else Continue)
    case Quit => (s, Exit)
    case Unknown(notice) => (s.(output := s.output + [notice]), Continue)
  }

  /** The tokenizer reads the re-quoted `sub` line of a bare URL line as something other
      than a bare URL, so `line` is re-dispatched at most once. */
  ghost predicate Settles(line: string, toArgs: string -> seq<string>)
  {
    var a := Commands.Dispatch(toArgs(line));
    a.Redispatch? ==> !Commands.Dispatch(toArgs(a.line)).Redispatch?
  }

  /** Every line of `lines` settles. */
  ghost predicate SettlesAll(lines: seq<string>, toArgs: string -> seq<string>)
    decreases |lines|
  {
    lines != [] ==> Settles(lines[0], toArgs) && SettlesAll(lines[1..], toArgs)
  }

  /** Every non-empty URL's page names its items and every launch of the tool ends. */
  ghost predicate WellBehaved(net: string -> Fetch, runs: nat -> ToolRun)
  {
    (forall u :: |u| > 0 ==> Resolvable(net(u))) && (forall n :: RunEnds(Reads(runs(n).script)))
  }

  lemma {:induction false} WellBehavedCanDownload(s: PState, urls: seq<string>, net: string -> Fetch, runs: nat -> ToolRun)
    requires WellBehaved(net, runs)
    ensures CanDownload(s, urls, net, runs)
  {
  }

  /** The action an input line finally comes to: a bare URL line is re-run once as `sub`. */
  function Settled(line: string, toArgs: string -> seq<string>): (a: Commands.Action)
    requires Settles(line, toArgs)
    ensures !a.Redispatch?
  {
    var a := Commands.Dispatch(toArgs(line));
    if a.Redispatch? then Commands.Dispatch(toArgs(a.line)) else a
  }

  /** `proc_input(line)`. */
  function ProcSpec(s: PState, cfg: Config, line: string, toArgs: string -> seq<string>, net: string -> Fetch, runs: nat -> ToolRun): (PState, Status)
    requires Settles(line, toArgs) && WellBehaved(net, runs)
  {
    var a := Settled(line, toArgs);
    assert a.Download? ==> CanDownload(s, a.urls, net, runs) by {
      if a.Download? { WellBehavedCanDownload(s, a.urls, net, runs); }
    }
    ActSpec(s, cfg, a, net, runs)
  }

  /** `proc_input` acts on the action its line settles to. */
  lemma {:induction false} ProcSpecOfSettled(s: PState, cfg: Config, line: string, toArgs: string -> seq<string>, net: string -> Fetch, runs: nat -> ToolRun)
    requires Settles(line, toArgs) && WellBehaved(net, runs)
    ensures var a := Settled(line, toArgs);
      (a.Download? ==> CanDownload(s, a.urls, net, runs))
      && ProcSpec(s, cfg, line, toArgs, net, runs) == ActSpec(s, cfg, a, net, runs)
  {
    var a := Settled(line, toArgs);
    if a.Download? {
      WellBehavedCanDownload(s, a.urls, net, runs);
    }
  }

  /** A bare URL line settles to what its re-quoted `sub` line settles to. */
  lemma {:induction false} SettledRedispatch(line: string, toArgs: string -> seq<string>)
    requires Settles(line, toArgs) && Commands.Dispatch(toArgs(line)).Redispatch?
    ensures Settles(Commands.Dispatch(toArgs(line)).line, toArgs)
    ensures Settled(line, toArgs) == Settled(Commands.Dispatch(toArgs(line)).line, toArgs)
  {
  }

  /** A line with no token does nothing. */
  lemma {:induction false} ProcEmpty(s: PState, cfg: Config, line: string, toArgs: string -> seq<string>, net: string -> Fetch, runs: nat -> ToolRun)
    requires WellBehaved(net, runs) && toArgs(line) == []
    ensures Settles(line, toArgs) && ProcSpec(s, cfg, line, toArgs, net, runs) == (s, Continue)
  {
    Commands.DispatchCases(toArgs(line));
  }

  /** `quit`, `q` and `exit` end the shell and change nothing else. */
  lemma {:induction false} ProcQuit(s: PState, cfg: Config, line: string, toArgs: string -> seq<string>, net: string -> Fetch, runs: nat -> ToolRun)
    requires WellBehaved(net, runs)
    requires toArgs(line) != [] && Strip(toArgs(line)[0], WHITESPACE) in {"quit", "q", "exit"}
    ensures Settles(line, toArgs) && ProcSpec(s, cfg, line, toArgs, net, runs) == (s, Exit)
  {
    Commands.DispatchCases(toArgs(line));
  }

  /** Any other command word that is not a URL pushes exactly its notice and carries on. */
  lemma {:induction false} ProcUnknown(s: PState, cfg: Config, line: string, toArgs: string -> seq<string>, net: string -> Fetch, runs: nat -> ToolRun)
    requires WellBehaved(net, runs) && toArgs(line) != []
    requires var c := Strip(toArgs(line)[0], WHITESPACE);
      !Commands.IsBareUrl(c) && c !in {"download", "sub", "subscribe"} && c !in {"quit", "q", "exit"}
    ensures Settles(line, toArgs)
    ensures var c := Strip(toArgs(line)[0], WHITESPACE);
      ProcSpec(s, cfg, line, toArgs, net, runs) ==
        (s.(output := s.output + ["Unknown command: '" + c + "'"]), Continue)
  {
    Commands.DispatchCases(toArgs(line));
  }

  /** A download command downloads the other tokens; the line ends in a crash exactly when
      a copy fails, naming the same destination, and carries on otherwise. */
  lemma {:induction false} ProcDownload(s: PState, cfg: Config, line: string, toArgs: string -> seq<string>, net: string -> Fetch, runs: nat -> ToolRun)
    requires WellBehaved(net, runs)
    requires toArgs(line) != [] && Strip(toArgs(line)[0], WHITESPACE) in {"download", "sub", "subscribe"}
    ensures Settles(line, toArgs) && CanDownload(s, toArgs(line)[1..], net, runs)
    ensures var r := ProcSpec(s, cfg, line, toArgs, net, runs);
      var d := DownloadSpec(s, cfg, toArgs(line)[1..], net, runs);
      && r.0 == d.0
      && (r.1.Crash? <==> d.1.Fail?)
      && (r.1.Crash? ==> r.1.path == d.1.error)
      && (d.1.Pass? ==> r.1 == Continue)
  {
    Commands.DispatchCases(toArgs(line));
    WellBehavedCanDownload(s, toArgs(line)[1..], net, runs);
  }

  lemma {:induction false} SettlesAllTail(lines: seq<string>, toArgs: string -> seq<string>)
    requires lines != [] && SettlesAll(lines, toArgs)
    ensures Settles(lines[0], toArgs) && SettlesAll(lines[1..], toArgs)
  {
  }

  /** The input lines run in order until one quits or crashes. */
  function RunAll(s: PState, cfg: Config, lines: seq<string>, toArgs: string -> seq<string>, net: string -> Fetch, runs: nat -> ToolRun): (r: (PState, Status))
    requires SettlesAll(lines, toArgs) && WellBehaved(net, runs)
    ensures r.0.running == s.running && s.output <= r.0.output
    decreases |lines|
  {
    if lines == [] then (s, Continue)
    else
      SettlesAllTail(lines, toArgs);
      var step := ProcSpec(s, cfg, lines[0], toArgs, net, runs);
      if !step.1.Continue? then step
      else RunAll(step.0, cfg, lines[1..], toArgs, net, runs)
  }

  /** The first line is run on its own, then the rest unless it stopped. */
  lemma {:induction false} RunAllCons(s: PState, cfg: Config, lines: seq<string>, toArgs: string -> seq<string>, net: string -> Fetch, runs: nat -> ToolRun)
    requires SettlesAll(lines, toArgs) && WellBehaved(net, runs) && lines != []
    ensures Settles(lines[0], toArgs) && SettlesAll(lines[1..], toArgs)
    ensures var step := ProcSpec(s, cfg, lines[0], toArgs, net, runs);
      RunAll(s, cfg, lines, toArgs, net, runs) ==
        if step.1.Continue? then RunAll(step.0, cfg, lines[1..], toArgs, net, runs) else step
  {
  }

  /** Every line of `a + b` settles exactly when every line of `a` and every line of `b` do. */
  lemma {:induction false} SettlesAllAppend(a: seq<string>, b: seq<string>, toArgs: string -> seq<string>)
    ensures SettlesAll(a + b, toArgs) <==> SettlesAll(a, toArgs) && SettlesAll(b, toArgs)
    decreases |a|
  {
    if a == [] {
      assert a + b == b;
    } else {
      assert (a + b)[0] == a[0] && (a + b)[1..] == a[1..] + b;
      SettlesAllAppend(a[1..], b, toArgs);
    }
  }

  /** Lines run in order by an arbitrary per-line step until one does not carry on. */
  ghost function RunWith(step: (PState, string) -> (PState, Status), s: PState, lines: seq<string>): (PState, Status)
    decreases |lines|
  {
    if lines == [] then (s, Continue)
    else
      var r := step(s, lines[0]);
      if r.1.Continue? then RunWith(step, r.0, lines[1..]) else r
  }

  lemma {:induction false} RunWithAppend(step: (PState, string) -> (PState, Status), s: PState, a: seq<string>, b: seq<string>)
    ensures var first := RunWith(step, s, a);
      RunWith(step, s, a + b) == if first.1.Continue? then RunWith(step, first.0, b) else first
    decreases |a|
  {
    if a == [] {
      assert a + b == b;
    } else {
      assert (a + b)[0] == a[0] && (a + b)[1..] == a[1..] + b;
      var r := step(s, a[0]);
      if r.1.Continue? {
        RunWithAppend(step, r.0, a[1..], b);
      }
    }
  }

  /** `proc_input` as a step on lines that settle. */
  ghost function LineStep(cfg: Config, toArgs: string -> seq<string>, net: string -> Fetch, runs: nat -> ToolRun): (PState, string) -> (PState, Status)
  {
    (st: PState, line: string) =>
      if Settles(line, toArgs) && WellBehaved(net, runs) then ProcSpec(st, cfg, line, toArgs, net, runs) else (st, Continue)
  }

  lemma {:induction false} RunAllIsRunWith(s: PState, cfg: Config, lines: seq<string>, toArgs: string -> seq<string>, net: string -> Fetch, runs: nat -> ToolRun)
    requires SettlesAll(lines, toArgs) && WellBehaved(net, runs)
    ensures RunAll(s, cfg, lines, toArgs, net, runs) == RunWith(LineStep(cfg, toArgs, net, runs), s, lines)
    decreases |lines|
  {
    if lines != [] {
      SettlesAllTail(lines, toArgs);
      var step := ProcSpec(s, cfg, lines[0], toArgs, net, runs);
      assert LineStep(cfg, toArgs, net, runs)(s, lines[0]) == step;
      if step.1.Continue? {
        RunAllIsRunWith(step.0, cfg, lines[1..], toArgs, net, runs);
      }
    }
  }

  /** Running `a + b` runs `a`, then `b` from where `a` left off unless a line of `a`
      quit or crashed. */
  lemma {:induction false} RunAllAppend(s: PState, cfg: Config, a: seq<string>, b: seq<string>, toArgs: string -> seq<string>, net: string -> Fetch, runs: nat -> ToolRun)
    requires SettlesAll(a, toArgs) && SettlesAll(b, toArgs) && WellBehaved(net, runs)
    ensures SettlesAll(a + b, toArgs)
    ensures var first := RunAll(s, cfg, a, toArgs, net, runs);
      RunAll(s, cfg, a + b, toArgs, net, runs) ==
        if first.1.Continue? then RunAll(first.0, cfg, b, toArgs, net, runs) else first
  {
    SettlesAllAppend(a, b, toArgs);
    var f := LineStep(cfg, toArgs, net, runs);
    RunAllIsRunWith(s, cfg, a + b, toArgs, net, runs);
    RunAllIsRunWith(s, cfg, a, toArgs, net, runs);
    RunWithAppend(f, s, a, b);
    var first := RunAll(s, cfg, a, toArgs, net, runs);
    if first.1.Continue? {
      RunAllIsRunWith(first.0, cfg, b, toArgs, net, runs);
    }
  }

  /** A quitting line ends the run there: the lines after it are not run. */
  lemma {:induction false} RunAllQuit(s: PState, cfg: Config, line: string, rest: seq<string>, toArgs: string -> seq<string>, net: string -> Fetch, runs: nat -> ToolRun)
    requires WellBehaved(net, runs) && SettlesAll(rest, toArgs)
    requires toArgs(line) != [] && Strip(toArgs(line)[0], WHITESPACE) in {"quit", "q", "exit"}
    ensures SettlesAll([line] + rest, toArgs)
    ensures RunAll(s, cfg, [line] + rest, toArgs, net, runs) == (s, Exit)
  {
    ProcQuit(s, cfg, line, toArgs, net, runs);
    var lines := [line] + rest;
    assert lines[0] == line && lines[1..] == rest;
    RunAllCons(s, cfg, lines, toArgs, net, runs);
  }

  /** `excute_run_arguments(args)`: the lines of the non-empty `*`-separated groups. */
  function RunArgsSpec(s: PState, cfg: Config, args: seq<string>, toArgs: string -> seq<string>, net: string -> Fetch, runs: nat -> ToolRun): (PState, Status)
    requires SettlesAll(Commands.RunLines(Commands.Groups(args)), toArgs) && WellBehaved(net, runs)
  {
    RunAll(s, cfg, Commands.RunLines(Commands.Groups(args)), toArgs, net, runs)
  }

  /** An argument list made only of `*`s runs nothing and changes nothing. */
  lemma {:induction false} RunArgsOfStars(s: PState, cfg: Config, args: seq<string>, toArgs: string -> seq<string>, net: string -> Fetch, runs: nat -> ToolRun)
    requires SettlesAll(Commands.RunLines(Commands.Groups(args)), toArgs) && WellBehaved(net, runs)
    requires forall k :: 0 <= k < |args| ==> args[k] == "*"
    ensures RunArgsSpec(s, cfg, args, toArgs, net, runs) == (s, Continue)
  {
    Commands.GroupsOfStars(args);
    Commands.RunLinesOfEmpty(Commands.Groups(args));
  }

  /** The program state. `cfg` is fixed at start-up. */
  class Shell {
    var running: bool
    var output: seq<string>
    var fs: set<Path>
    var launches: seq<seq<string>>
    const cfg: Config

    function State(): PState
      reads this
    {
      PState(running, output, fs, launches)
    }

    /** Start-up: the flag is clear and the downloads folder is made if missing. */
    constructor (cfg: Config, fs: set<Path>)
      ensures State() == PState(false, [], fs + {cfg.downloadsRoot}, []) && this.cfg == cfg
    {
      this.cfg := cfg;
      running := false;
      output := [];
      this.fs := fs + {cfg.downloadsRoot};
      launches := [];
    }

    /** `push_text(t)`. */
    method PushText(t: string)
      modifies this
      ensures State() == old(State()).(output := old(output) + [t])
    {
      output := output + [t];
    }

    /** `DownloadLock.__enter__`. */
    method Acquire()
      modifies this
      ensures State() == old(State()).(running := true)
    {
      running := true;
    }

    /** `DownloadLock.__exit__`. */
    method Release()
      modifies this
      ensures State() == old(State()).(running := false)
    {
      running := false;
    }

    /** Starts the tool; only done while the lock is held. The tool's written paths appear. */
    method Launch(args: seq<string>, runs: nat -> ToolRun) returns (script: seq<Step>)
      requires running
      modifies this
      ensures script == runs(|old(launches)|).script
      ensures State() == old(State()).(launches := old(launches) + [args],
                                       fs := old(fs) + runs(|old(launches)|).written)
    {
      var run := runs(|launches|);
      launches := launches + [args];
      fs := fs + run.written;
      script := run.script;
    }

    /** `deploy_downloaded_item(it)`. */
    method DeployItemStep(it: Item) returns (o: Outcome<Path>)
      modifies this
      ensures (fs, o) == DeployItem(old(fs), it, cfg.contentRoot, cfg.downloadsRoot)
      ensures State() == old(State()).(fs := fs)
    {
      fs := fs + {AppDir(cfg.downloadsRoot, it)};
      var src := SourceDir(cfg.contentRoot, it);
      var dst := ItemDir(cfg.downloadsRoot, it);
      if src !in fs {
        return Pass;
      }
      if dst in fs {
        return Fail(dst);
      }
      fs := fs + Copied(fs, src, dst);
      o := Pass;
    }

    /** `deploy_all(items)`: a failed copy raises, so the loop ends there. */
    method DeployAllItems(items: seq<Option<Item>>) returns (o: Outcome<Path>)
      modifies this
      ensures (fs, o) == DeployAll(old(fs), items, cfg.contentRoot, cfg.downloadsRoot)
      ensures State() == old(State()).(fs := fs)
    {
      ghost var target := DeployAll(fs, items, cfg.contentRoot, cfg.downloadsRoot);
      o := Pass;
      var i := 0;
      while i < |items| && o.Pass?
        invariant 0 <= i <= |items|
        invariant State() == old(State()).(fs := fs)
        invariant o.Pass? ==> target == DeployAll(fs, items[i..], cfg.contentRoot, cfg.downloadsRoot)
        invariant o.Fail? ==> target == (fs, o)
      {
        assert items[i..][1..] == items[i + 1..];
        if items[i].Some? {
          o := DeployItemStep(items[i].value);
        }
        i := i + 1;
      }
      if o.Pass? {
        assert items[i..] == [];
      }
    }

    /** `download(urls)`. */
    method Download(urls: seq<string>, net: string -> Fetch, runs: nat -> ToolRun) returns (o: Outcome<Path>)
      requires !running ==> CanDownload(State(), urls, net, runs)
      modifies this
      ensures (State(), o) == DownloadSpec(old(State()), cfg, urls, net, runs)
    {
      var cleaned := StripAll(urls);
      if running {
        return Pass;
      }
      var downloads, notices := DecodedDownloadUrls(cleaned, net);
      output := output + notices;
      if downloads.None? {
        assert notices == [] && output == old(output);
        return Pass;
      }
      var items := downloads.value;
      if items == [] {
        PushText("Requesting a download with no urls");
        return Pass;
      }
      PushText("Started " + NatToString(|items|) + " Download(s)");
      Acquire();
      var args, requests := SteamcmdArgs(cfg.exe, cfg.login, cfg.passw, Wrap(items));
      PresentWrap(items);
      output := output + requests;
      var script := Launch(args, runs);
      var pushed, _ := ReadLoop(script);
      output := output + pushed;
      Release();
      o := DeployAllItems(Wrap(items));
    }

    /** `proc_input(line)` once the line's action is known. */
    method Act(a: Commands.Action, net: string -> Fetch, runs: nat -> ToolRun) returns (st: Status)
      requires !a.Redispatch?
      requires a.Download? && !running ==> CanDownload(State(), a.urls, net, runs)
      modifies this
      ensures (State(), st) == ActSpec(old(State()), cfg, a, net, runs)
    {
      match a
      case Nothing =>
        st := Continue;
      case Download(urls) =>
        var o := Download(urls, net, runs);
        st := if o.Fail? then Crash(o.error) else Continue;
      case Quit =>
        st := Exit;
      case Unknown(notice) =>
        PushText(notice);
        st := Continue;
    }

    /** `proc_input(line)`: a bare URL line is re-run as a `sub` line. */
    method ProcInput(line: string, toArgs: string -> seq<string>, net: string -> Fetch, runs: nat -> ToolRun) returns (st: Status)
      requires Settles(line, toArgs) && WellBehaved(net, runs)
      modifies this
      ensures (State(), st) == ProcSpec(old(State()), cfg, line, toArgs, net, runs)
      decreases if Commands.Dispatch(toArgs(line)).Redispatch? then 1 else 0
    {
      var tokens := toArgs(line);
      var a := Commands.Dispatch(tokens);
      ghost var s := State();
      ProcSpecOfSettled(s, cfg, line, toArgs, net, runs);
      if a.Redispatch? {
        SettledRedispatch(line, toArgs);
        st := ProcInput(a.line, toArgs, net, runs);
        ProcSpecOfSettled(s, cfg, a.line, toArgs, net, runs);
        return;
      }
      if a.Download? {
        WellBehavedCanDownload(s, a.urls, net, runs);
      }
      st := Act(a, net, runs);
    }

    /** `excute_run_arguments(args)`. */
    method ExecuteRunArguments(args: seq<string>, toArgs: string -> seq<string>, net: string -> Fetch, runs: nat -> ToolRun) returns (st: Status)
      requires SettlesAll(Commands.RunLines(Commands.Groups(args)), toArgs) && WellBehaved(net, runs)
      modifies this
      ensures (State(), st) == RunArgsSpec(old(State()), cfg, args, toArgs, net, runs)
    {
      var subargs := Commands.SplitRunArguments(args);
      ghost var gs := Commands.Groups(args);
      ghost var target := RunAll(State(), cfg, Commands.RunLines(gs), toArgs, net, runs);
      st := Continue;
      var i := 0;
      assert gs[0..] == gs;
      while i < |subargs| && st.Continue?
        invariant 0 <= i <= |subargs|
        invariant SettlesAll(Commands.RunLines(gs[i..]), toArgs)
        invariant st.Continue? ==> target == RunAll(State(), cfg, Commands.RunLines(gs[i..]), toArgs, net, runs)
        invariant !st.Continue? ==> target == (State(), st)
      {
        ghost var rest := Commands.RunLines(gs[i + 1..]);
        ghost var lines := Commands.RunLines(gs[i..]);
        assert gs[i..][0] == gs[i] && gs[i..][1..] == gs[i + 1..];
        assert subargs[i] == Commands.Quoted(gs[i]);
        if subargs[i] != [] {
          var line := Join(" ", subargs[i]);
          assert lines == [line] + rest;
          assert lines[0] == line && lines[1..] == rest;
          SettlesAllAppend([line], rest, toArgs);
          RunAllCons(State(), cfg, lines, toArgs, net, runs);
          st := ProcInput(line, toArgs, net, runs);
        } else {
          assert lines == rest;
          SettlesAllAppend([], rest, toArgs);
        }
        i := i + 1;
      }
      if st.Continue? {
        assert gs[i..] == [];
      }
    }
  }
}
