/** External Tool Runner: the steamcmd argument vector (`run_steamcmd`, with the
    credential gate applied at start-up) and the loop that reads the tool's standard
    output line by line (the body of the `DownloadLock` block in `download`). Launching
    the process and polling it are not modelled: the tool's output is a script of lines,
    each paired with whether `poll()` reports the process as exited after that line. */
module SteamCmd {
  import opened Wrappers
  import opened Text
  import opened Workshop

  /** The start-up gate: a username or password shorter than four characters is treated as absent. */
  function CredentialGate(username: string, password: string): (r: (Option<string>, Option<string>))
    ensures r.0.Some? <==> |username| >= 4
    ensures r.1.Some? <==> |password| >= 4
    ensures r.0.Some? ==> r.0.value == username
    ensures r.1.Some? ==> r.1.value == password
  {
    (if |username| >= 4 then Some(username) else None, if |password| >= 4 then Some(password) else None)
  }

  /** The second argument: a real login only when both credentials are present. */
  function LoginArg(login: Option<string>, passw: Option<string>): string
  {
    if login.Some? && passw.Some? then "+login " + login.value + " " + passw.value else "+login anonymous"
  }

  /** Configured credentials reach the command line only when both are at least four characters long. */
  lemma {:induction false} LoginArgOfSettings(username: string, password: string)
    ensures var g := CredentialGate(username, password);
      LoginArg(g.0, g.1) ==
        if |username| >= 4 && |password| >= 4 then "+login " + username + " " + password else "+login anonymous"
  {
  }

  const DOWNLOAD_PREFIX := "+workshop_download_item "

  /** The argument that asks the tool for one item. */
  function DownloadArg(it: Item): string
  {
    DOWNLOAD_PREFIX + NatToString(it.appid) + " " + NatToString(it.itemid)
  }

  /** Reads an app id and an item id back from a download argument. */
  function ParseDownloadArg(s: string): Option<(nat, nat)>
  {
    if !StartsWith(s, DOWNLOAD_PREFIX) then None
    else
      var rest := s[|DOWNLOAD_PREFIX|..];
      match Find(rest, " ")
      case None => None
      case Some(k) =>
        var a := rest[..k];
        var b := rest[k + 1..];
        if IsDigits(a) && IsDigits(b) then Some((ParseDigits(a), ParseDigits(b))) else None
  }

  /** A download argument names exactly the app and item of its record. */
  lemma {:induction false} ParseDownloadArgOf(it: Item)
    ensures ParseDownloadArg(DownloadArg(it)) == Some((it.appid, it.itemid))
  {
    var a, b := NatToString(it.appid), NatToString(it.itemid);
    var s := DownloadArg(it);
    assert StartsWith(s, DOWNLOAD_PREFIX) by {
      assert s[..|DOWNLOAD_PREFIX|] == DOWNLOAD_PREFIX;
    }
    var rest := s[|DOWNLOAD_PREFIX|..];
    assert rest == a + " " + b;
    assert OccursAt(rest, " ", |a|) by { assert rest[|a|..|a| + 1] == " "; }
    var k := Find(rest, " ");
    assert k.Some? && k.value <= |a|;
    forall j | 0 <= j < |a| ensures !OccursAt(rest, " ", j) {
      assert rest[j] == a[j];
    }
    assert k.value == |a|;
    assert rest[..|a|] == a;
    assert rest[|a| + 1..] == b;
    ParseNatToString(it.appid);
    ParseNatToString(it.itemid);
  }

  /** The vector passed to the tool: executable, login, one download per item, quit. */
  function ArgVector(exe: string, login: Option<string>, passw: Option<string>, items: seq<Item>): seq<string>
  {
    [exe, LoginArg(login, passw)] + DownloadArgs(items) + ["+quit"]
  }

  /** The argument vector has the login first, `+quit` last and, between them, one download
      request per item in batch order, each naming that item's app and item id. */
  lemma {:induction false} ArgVectorShape(exe: string, login: Option<string>, passw: Option<string>, items: seq<Item>)
    ensures var v := ArgVector(exe, login, passw, items);
      && |v| == |items| + 3
      && v[0] == exe && v[1] == LoginArg(login, passw) && v[|v| - 1] == "+quit"
      && forall k :: 0 <= k < |items| ==> ParseDownloadArg(v[k + 2]) == Some((items[k].appid, items[k].itemid))
  {
    var v := ArgVector(exe, login, passw, items);
    forall k | 0 <= k < |items|
      ensures ParseDownloadArg(v[k + 2]) == Some((items[k].appid, items[k].itemid))
    {
      assert v[k + 2] == DownloadArg(items[k]);
      ParseDownloadArgOf(items[k]);
    }
  }

  /** The notice pushed for each requested item (main.py:201). */
  function RequestNotice(it: Item): string
  {
    "requsting the workshop item '" + it.name + "' for '" + it.appname + "'"
  }

  /** One notice per item, in order. */
  function RequestNotices(items: seq<Item>): (r: seq<string>)
    ensures |r| == |items| && forall k :: 0 <= k < |items| ==> r[k] == RequestNotice(items[k])
  {
    if items == [] then [] else RequestNotices(items[..|items| - 1]) + [RequestNotice(items[|items| - 1])]
  }

  /** The download arguments for `items`, in order. */
  function DownloadArgs(items: seq<Item>): (r: seq<string>)
    ensures |r| == |items| && forall k :: 0 <= k < |items| ==> r[k] == DownloadArg(items[k])
  {
    if items == [] then [] else DownloadArgs(items[..|items| - 1]) + [DownloadArg(items[|items| - 1])]
  }

  lemma {:induction false} BuildersSnoc(items: seq<Item>, i: nat)
    requires i < |items|
    ensures DownloadArgs(items[..i + 1]) == DownloadArgs(items[..i]) + [DownloadArg(items[i])]
    ensures RequestNotices(items[..i + 1]) == RequestNotices(items[..i]) + [RequestNotice(items[i])]
  {
    assert items[..i + 1][..i] == items[..i];
  }

  /** `run_steamcmd` up to the launch: filters out `None`, then appends the login, one
      download per item and `+quit`, pushing a notice per item. */
  method SteamcmdArgs(exe: string, login: Option<string>, passw: Option<string>, items: seq<Option<Item>>)
    returns (args: seq<string>, notices: seq<string>)
    ensures args == ArgVector(exe, login, passw, Present(items))
    ensures notices == RequestNotices(Present(items))
  {
    var present := Present(items);
    args := [exe];
    if login.Some? && passw.Some? {
      args := args + ["+login " + login.value + " " + passw.value];
    } else {
      args := args + ["+login anonymous"];
    }
    assert args == [exe, LoginArg(login, passw)] + DownloadArgs([]);
    notices := [];
    var i := 0;
    while i < |present|
      invariant 0 <= i <= |present|
      invariant args == [exe, LoginArg(login, passw)] + DownloadArgs(present[..i])
      invariant notices == RequestNotices(present[..i])
    {
      BuildersSnoc(present, i);
      AppendAssoc([exe, LoginArg(login, passw)], DownloadArgs(present[..i]), [DownloadArg(present[i])]);
      notices := notices + [RequestNotice(present[i])];
      args := args + [DownloadArg(present[i])];
      i := i + 1;
    }
    assert present[..i] == present;
    args := args + ["+quit"];
  }

  // ---------------------------------------------------------------------------
  // The read loop.

  const REDIRECT_MARKER := "Redirecting stderr to"
  const PROMPT_BANNER := "-- type 'quit' to exit --"

  /** One `readline()` of the tool's output and whether `poll()` would report the process as exited after it. */
  datatype Step = Step(line: string, exited: bool)

  /** How the loop treats a line: the marker wins over the banner, which wins over plain text. */
  datatype LineKind = Redirect(before: string) | Banner | Plain

  function Classify(line: string): LineKind
  {
    match Find(line, REDIRECT_MARKER)
    case Some(j) => Redirect(line[..j])
    case None => if StartsWith(line, PROMPT_BANNER) then Banner else Plain
  }

  /** A line is a redirect line exactly when it contains the marker, and then what is kept is
      the text before the marker's first occurrence; it is a banner line exactly when it lacks
      the marker and begins with the prompt banner. */
  lemma {:induction false} ClassifyMeaning(line: string)
    ensures Classify(line).Redirect? <==> exists j :: OccursAt(line, REDIRECT_MARKER, j)
    ensures Classify(line).Banner? <==>
              (forall j :: !OccursAt(line, REDIRECT_MARKER, j)) && StartsWith(line, PROMPT_BANNER)
    ensures Classify(line).Redirect? ==>
      var before := Classify(line).before;
      && line[..|before|] == before
      && OccursAt(line, REDIRECT_MARKER, |before|)
      && forall j :: 0 <= j < |before| ==> !OccursAt(line, REDIRECT_MARKER, j)
  {
  }

  /** The loop's view of one line read: its text, its kind and whether the process had exited. */
  datatype Read = Read(line: string, kind: LineKind, exited: bool)

  /** The tool's output as the loop sees it, line by line. */
  function Reads(script: seq<Step>): (rs: seq<Read>)
    ensures |rs| == |script|
  {
    if script == [] then []
    else [Read(script[0].line, Classify(script[0].line), script[0].exited)] + Reads(script[1..])
  }

  lemma {:induction false} ReadsAt(script: seq<Step>, k: nat)
    requires k < |script|
    ensures Reads(script)[k] == Read(script[k].line, Classify(script[k].line), script[k].exited)
  {
    if k > 0 {
      ReadsAt(script[1..], k - 1);
    }
  }

  /** After this line the loop breaks. A banner line skips the exit poll. */
  predicate Stops(r: Read)
  {
    match r.kind
    case Redirect(_) => true
    case Banner => false
    case Plain => r.exited
  }

  /** The output reaches a line that ends the loop (the process does not hang). */
  ghost predicate RunEnds(rs: seq<Read>)
  {
    exists k :: 0 <= k < |rs| && Stops(rs[k])
  }

  /** The texts the loop pushes, reading from the first line on. */
  function Transcript(rs: seq<Read>): seq<string>
  {
    if rs == [] then []
    else match rs[0].kind
      case Redirect(before) => [before + "\n"]
      case Banner => Transcript(rs[1..])
      case Plain => [rs[0].line] + (if rs[0].exited then [] else Transcript(rs[1..]))
  }

  /** Index of the line after which the loop breaks. */
  function StopIndex(rs: seq<Read>): (k: nat)
    requires RunEnds(rs)
    ensures k < |rs| && Stops(rs[k])
    ensures forall j :: 0 <= j < k ==> !Stops(rs[j])
  {
    if Stops(rs[0]) then 0
    else
      assert RunEnds(rs[1..]) by {
        var k :| 0 <= k < |rs| && Stops(rs[k]);
        assert k > 0 && rs[1..][k - 1] == rs[k];
      }
      var k := StopIndex(rs[1..]);
      assert forall j :: 1 <= j < k + 1 ==> rs[j] == rs[1..][j - 1];
      k + 1
  }

  /** Lines forwarded verbatim from lines that do not stop the loop. */
  function Forwarded(rs: seq<Read>): seq<string>
  {
    if rs == [] then []
    else
      var last := rs[|rs| - 1];
      Forwarded(rs[..|rs| - 1]) + (if last.kind.Banner? then [] else [last.line])
  }

  /** What the line that stops the loop pushes. */
  function FinalText(r: Read): string
  {
    match r.kind
    case Redirect(before) => before + "\n"
    case _ => r.line
  }

  lemma {:induction false} ForwardedCons(r: Read, rest: seq<Read>)
    ensures Forwarded([r] + rest) == (if r.kind.Banner? then [] else [r.line]) + Forwarded(rest)
    decreases |rest|
  {
    var all := [r] + rest;
    if rest == [] {
      assert all[..0] == [];
    } else {
      assert all[..|all| - 1] == [r] + rest[..|rest| - 1];
      ForwardedCons(r, rest[..|rest| - 1]);
    }
  }

  /** The stopping index is the first line that stops the loop. */
  lemma {:induction false} StopIndexIsFirst(rs: seq<Read>, m: nat)
    requires m < |rs| && Stops(rs[m]) && forall j :: 0 <= j < m ==> !Stops(rs[j])
    ensures RunEnds(rs) && StopIndex(rs) == m
  {
  }

  /** A run that does not stop at its first line stops one line earlier without it. */
  lemma {:induction false} StopIndexTail(rs: seq<Read>)
    requires RunEnds(rs) && StopIndex(rs) > 0
    ensures RunEnds(rs[1..]) && StopIndex(rs[1..]) == StopIndex(rs) - 1
  {
    var k := StopIndex(rs);
    var rest := rs[1..];
    forall j | 0 <= j < k - 1 ensures !Stops(rest[j]) {
      assert rest[j] == rs[j + 1];
    }
    assert rest[k - 1] == rs[k];
    StopIndexIsFirst(rest, k - 1);
  }

  /** The loop pushes every non-banner line before the stopping line, in order, and then
      what the stopping line pushes: the text before the first marker plus a newline when
      the marker is present, the line itself otherwise. Nothing after it is read. */
  lemma {:induction false} TranscriptClosedForm(rs: seq<Read>)
    requires RunEnds(rs)
    ensures var k := StopIndex(rs);
      Transcript(rs) == Forwarded(rs[..k]) + [FinalText(rs[k])]
  {
    var k := StopIndex(rs);
    if k == 0 {
      assert rs[..0] == [];
    } else {
      var rest := rs[1..];
      var head := if rs[0].kind.Banner? then [] else [rs[0].line];
      assert !Stops(rs[0]);
      assert Transcript(rs) == head + Transcript(rest);
      StopIndexTail(rs);
      TranscriptClosedForm(rest);
      assert rs[..k] == [rs[0]] + rest[..k - 1];
      assert rest[k - 1] == rs[k];
      ForwardedCons(rs[0], rest[..k - 1]);
      AppendAssoc(head, Forwarded(rest[..k - 1]), [FinalText(rs[k])]);
    }
  }

  /** A prompt-banner line is never pushed, unless it is the stopping line and carries the marker. */
  lemma {:induction false} BannerSuppressed(script: seq<Step>, j: nat)
    requires RunEnds(Reads(script)) && j < StopIndex(Reads(script))
    requires StartsWith(script[j].line, PROMPT_BANNER)
    ensures Reads(script)[j].kind.Banner?
    ensures Forwarded(Reads(script)[..j + 1]) == Forwarded(Reads(script)[..j])
  {
    var rs := Reads(script);
    ReadsAt(script, j);
    assert !Stops(rs[j]);
    assert rs[..j + 1][..j] == rs[..j];
  }

  lemma {:induction false} ForwardedStep(rs: seq<Read>, i: nat)
    requires i < |rs|
    ensures Forwarded(rs[..i + 1]) == Forwarded(rs[..i]) + (if rs[i].kind.Banner? then [] else [rs[i].line])
  {
    assert rs[..i + 1][..i] == rs[..i];
  }

  /** What the loop learns from reading line `i`, before the stopping line or at it. */
  lemma {:induction false} LoopStep(script: seq<Step>, i: nat)
    requires RunEnds(Reads(script)) && i <= StopIndex(Reads(script))
    ensures var rs := Reads(script); var line := script[i].line;
      && (Find(line, REDIRECT_MARKER).Some? ==>
            i == StopIndex(rs) && FinalText(rs[i]) == line[..Find(line, REDIRECT_MARKER).value] + "\n")
      && (Find(line, REDIRECT_MARKER).None? && StartsWith(line, PROMPT_BANNER) ==>
            i < StopIndex(rs) && Forwarded(rs[..i + 1]) == Forwarded(rs[..i]))
      && (Find(line, REDIRECT_MARKER).None? && !StartsWith(line, PROMPT_BANNER) ==>
            FinalText(rs[i]) == line
            && Forwarded(rs[..i + 1]) == Forwarded(rs[..i]) + [line]
            && (script[i].exited <==> i == StopIndex(rs)))
  {
    var rs := Reads(script);
    ReadsAt(script, i);
    ForwardedStep(rs, i);
  }

  /** The read loop: reads lines until the marker is seen or a non-banner line leaves the
      process exited; returns the pushed texts and how many lines were read. */
  method ReadLoop(script: seq<Step>) returns (pushed: seq<string>, linesRead: nat)
    requires RunEnds(Reads(script))
    ensures linesRead == StopIndex(Reads(script)) + 1
    ensures pushed == Transcript(Reads(script))
  {
    ghost var rs := Reads(script);
    ghost var stop := StopIndex(rs);
    pushed := [];
    var i := 0;
    while true
      invariant 0 <= i <= stop
      invariant pushed == Forwarded(rs[..i])
      decreases stop - i
    {
      var out := script[i].line;
      LoopStep(script, i);
      match Find(out, REDIRECT_MARKER)
      case Some(m) =>
        pushed := pushed + [out[..m] + "\n"];
        break;
      case None =>
      if StartsWith(out, PROMPT_BANNER) {
        i := i + 1;
        continue;
      }
      pushed := pushed + [out];
      if script[i].exited {
        break;
      }
      i := i + 1;
    }
    linesRead := i + 1;
    TranscriptClosedForm(rs);
  }
}
