/** Page Resolver and Download Batch Builder: turning workshop pages into
    `WorkshopItemInfo` records (`get_app_and_item_ids`) and a list of URLs into one
    ordered batch (`decoded_download_urls`). The HTTP fetch and the regular-expression
    engine are not modelled: a fetch is a `Fetch` value, and a page is the list of
    matches of the collection pattern together with what the two name extractors find. */
module Workshop {
  import opened Wrappers
  import opened Text

  /** `WorkshopItemInfo`: an immutable record, fields in the source's order. */
  datatype Item = Item(appname: string, name: string, appid: nat, itemid: nat)

  /** One match of the collection pattern: group 2 (the item id) and group 3 (the app id), as digit strings. */
  datatype IdMatch = IdMatch(itemDigits: string, appDigits: string)

  /** What the program extracts from one page body: the id matches in document order, the
      first `workshopItemTitle` text (if any) and, keyed by the app id exactly as written in
      the match, the text of the first anchor linking to that app's page. */
  datatype Page = Page(matches: seq<IdMatch>, title: Option<string>, appNames: map<string, string>)

  /** The result of `requests.get(url)`: a transport exception (its type text and message) or a page. */
  datatype Fetch = Failed(excType: string, excMessage: string) | Fetched(page: Page)

  /** The name lookups used while extracting items cannot fail on this fetch (a missing
      title or app anchor makes the source index `None` and crash), and every match holds
      digit strings, as `\d+` guarantees. */
  ghost predicate Resolvable(f: Fetch)
  {
    f.Fetched? ==> f.page.matches != [] ==> f.page.title.Some? && AllNamed(f.page.matches, f.page)
  }

  /** Both groups of `m` are digit strings and page `p` names `m`'s app. */
  ghost predicate Named(m: IdMatch, p: Page)
  {
    IsDigits(m.itemDigits) && IsDigits(m.appDigits) && m.appDigits in p.appNames
  }

  ghost predicate AllNamed(ms: seq<IdMatch>, p: Page)
  {
    forall k :: 0 <= k < |ms| ==> Named(ms[k], p)
  }

  /** The record built for one match (main.py:145). */
  function MatchItem(m: IdMatch, p: Page): (it: Item)
    requires Named(m, p) && p.title.Some?
    ensures it.appid == ParseDigits(m.appDigits) && it.itemid == ParseDigits(m.itemDigits)
    ensures it.name == p.title.value && it.appname == p.appNames[m.appDigits]
  {
    Item(p.appNames[m.appDigits], p.title.value, ParseDigits(m.appDigits), ParseDigits(m.itemDigits))
  }

  /** The items yielded for the matches `ms` of page `p`, one per match, in order. */
  function ItemsOf(ms: seq<IdMatch>, p: Page): (r: seq<Item>)
    requires AllNamed(ms, p) && (ms != [] ==> p.title.Some?)
    ensures |r| == |ms|
  {
    if ms == [] then []
    else
      assert AllNamed(ms[1..], p) by {
        forall k | 0 <= k < |ms| - 1 ensures Named(ms[1..][k], p) { assert ms[1..][k] == ms[k + 1]; }
      }
      [MatchItem(ms[0], p)] + ItemsOf(ms[1..], p)
  }

  /** The `k`-th item is built from the `k`-th match. */
  lemma {:induction false} ItemsOfAt(ms: seq<IdMatch>, p: Page, k: nat)
    requires AllNamed(ms, p) && (ms != [] ==> p.title.Some?) && k < |ms|
    ensures ItemsOf(ms, p)[k] == MatchItem(ms[k], p)
  {
    if k > 0 {
      assert AllNamed(ms[1..], p) by {
        forall j | 0 <= j < |ms| - 1 ensures Named(ms[1..][j], p) { assert ms[1..][j] == ms[j + 1]; }
      }
      ItemsOfAt(ms[1..], p, k - 1);
    }
  }

  /** The comprehension at main.py:192: the items that are not `None`, in order. */
  function Present(items: seq<Option<Item>>): (r: seq<Item>)
    ensures |r| <= |items|
    ensures forall it :: it in r <==> Some(it) in items
  {
    if items == [] then []
    else (if items[0].Some? then [items[0].value] else []) + Present(items[1..])
  }

  /** The items of a batch all present. */
  function Wrap(items: seq<Item>): (r: seq<Option<Item>>)
    ensures |r| == |items| && forall k :: 0 <= k < |items| ==> r[k] == Some(items[k])
  {
    seq(|items|, k requires 0 <= k < |items| => Some(items[k]))
  }

  /** Filtering distributes over concatenation, so kept items stay in order and keep
      their multiplicity. */
  lemma {:induction false} PresentAppend(a: seq<Option<Item>>, b: seq<Option<Item>>)
    ensures Present(a + b) == Present(a) + Present(b)
    decreases |a|
  {
    if a == [] {
      assert a + b == b;
    } else {
      assert (a + b)[0] == a[0] && (a + b)[1..] == a[1..] + b;
      PresentAppend(a[1..], b);
    }
  }

  /** One entry is kept exactly when it is present. */
  lemma {:induction false} PresentOne(x: Option<Item>)
    ensures Present([x]) == if x.Some? then [x.value] else []
  {
    assert [x][1..] == [];
  }

  lemma {:induction false} PresentWrap(items: seq<Item>)
    ensures Present(Wrap(items)) == items
  {
    if items != [] {
      assert Wrap(items)[1..] == Wrap(items[1..]);
      PresentWrap(items[1..]);
    }
  }

  /** Diagnostics printed when the fetch raises (main.py:137-139). */
  function FetchFailureNotice(url: string, excType: string, excMessage: string): seq<string>
  {
    ["Could not load workshop page for '" + url + "'\n", excType + "\n", excMessage + "\n"]
  }

  /** Diagnostic printed for a page without any id match (main.py:147). */
  function NotWorkshopNotice(url: string): string
  {
    "\"" + url + "\" doesn't look like a valid workshop item...\n"
  }

  /** `get_app_and_item_ids(url)` on the fetch result `f`: the items it yields and the
      diagnostics it pushes. */
  function Extract(url: string, f: Fetch): (seq<Item>, seq<string>)
    requires Resolvable(f)
  {
    match f
    case Failed(t, msg) => ([], FetchFailureNotice(url, t, msg))
    case Fetched(p) =>
      if p.matches != [] then (ItemsOf(p.matches, p), [])
      else ([], [NotWorkshopNotice(url)])
  }

  /** A page with matches yields one item per match, in document order, with
      `itemid = int(group 2)`, `appid = int(group 3)`, the app's anchor text and the page's
      single title, and pushes nothing; a page without matches yields nothing and pushes one
      diagnostic; a failed fetch yields nothing and pushes the three lines of the report. */
  lemma {:induction false} ExtractShape(url: string, f: Fetch)
    requires Resolvable(f)
    ensures f.Failed? ==> Extract(url, f) == ([], FetchFailureNotice(url, f.excType, f.excMessage))
    ensures f.Fetched? && f.page.matches == [] ==> Extract(url, f) == ([], [NotWorkshopNotice(url)])
    ensures f.Fetched? && f.page.matches != [] ==>
              Extract(url, f).1 == [] && |Extract(url, f).0| == |f.page.matches|
    ensures f.Fetched? ==> forall k :: 0 <= k < |Extract(url, f).0| ==>
              && Named(f.page.matches[k], f.page)
              && Extract(url, f).0[k].itemid == ParseDigits(f.page.matches[k].itemDigits)
              && Extract(url, f).0[k].appid == ParseDigits(f.page.matches[k].appDigits)
              && Extract(url, f).0[k].appname == f.page.appNames[f.page.matches[k].appDigits]
              && Extract(url, f).0[k].name == f.page.title.value
  {
    if f.Fetched? && f.page.matches != [] {
      var items := ItemsOf(f.page.matches, f.page);
      forall k | 0 <= k < |items|
        ensures items[k] == MatchItem(f.page.matches[k], f.page)
      {
        ItemsOfAt(f.page.matches, f.page, k);
      }
    }
  }

  /** Every item of one page carries that page's single title. */
  lemma {:induction false} PageItemsShareName(url: string, f: Fetch, j: nat, k: nat)
    requires Resolvable(f)
    requires j < |Extract(url, f).0| && k < |Extract(url, f).0|
    ensures Extract(url, f).0[j].name == Extract(url, f).0[k].name
  {
    ExtractShape(url, f);
  }

  /** Every fetch a list of URLs causes (one per non-empty URL) can be resolved. */
  ghost predicate AllResolvable(urls: seq<string>, net: string -> Fetch)
  {
    forall k :: 0 <= k < |urls| && |urls[k]| > 0 ==> Resolvable(net(urls[k]))
  }

  /** The items and diagnostics produced by resolving `urls` in order; `net(u)` is what
      fetching `u` returns. Empty strings are not fetched. */
  function Resolve(urls: seq<string>, net: string -> Fetch): (seq<Item>, seq<string>)
    requires AllResolvable(urls, net)
  {
    if urls == [] then ([], [])
    else
      var prev := Resolve(urls[..|urls| - 1], net);
      var u := urls[|urls| - 1];
      if |u| > 0 then
        var e := Extract(u, net(u));
        (prev.0 + e.0, prev.1 + e.1)
      else prev
  }

  /** `decoded_download_urls(urls)`: `None` for an empty list, otherwise the batch. */
  function Batch(urls: seq<string>, net: string -> Fetch): Option<seq<Item>>
    requires AllResolvable(urls, net)
  {
    if urls == [] then None else Some(Resolve(urls, net).0)
  }

  lemma {:induction false} AllResolvableAppend(a: seq<string>, b: seq<string>, net: string -> Fetch)
    requires AllResolvable(a, net) && AllResolvable(b, net)
    ensures AllResolvable(a + b, net)
  {
    forall k | 0 <= k < |a + b| && |(a + b)[k]| > 0 ensures Resolvable(net((a + b)[k])) {
      if k < |a| { assert (a + b)[k] == a[k]; } else { assert (a + b)[k] == b[k - |a|]; }
    }
  }

  lemma {:induction false} AllResolvablePrefix(urls: seq<string>, n: nat, net: string -> Fetch)
    requires n <= |urls| && AllResolvable(urls, net)
    ensures AllResolvable(urls[..n], net)
  {
    forall k | 0 <= k < n && |urls[..n][k]| > 0 ensures Resolvable(net(urls[..n][k])) {
      assert urls[..n][k] == urls[k];
    }
  }

  /** Resolving two lists one after the other is resolving their concatenation. */
  lemma {:induction false} ResolveAppend(a: seq<string>, b: seq<string>, net: string -> Fetch)
    requires AllResolvable(a, net) && AllResolvable(b, net)
    ensures AllResolvable(a + b, net)
    ensures Resolve(a + b, net).0 == Resolve(a, net).0 + Resolve(b, net).0
    ensures Resolve(a + b, net).1 == Resolve(a, net).1 + Resolve(b, net).1
  {
    AllResolvableAppend(a, b, net);
    if b != [] {
      var b' := b[..|b| - 1];
      var u := b[|b| - 1];
      AllResolvablePrefix(b, |b| - 1, net);
      assert (a + b)[..|a + b| - 1] == a + b';
      assert (a + b)[|a + b| - 1] == u;
      AllResolvableAppend(a, b', net);
      ResolveAppend(a, b', net);
      var p, q, r := Resolve(a, net), Resolve(b', net), Resolve(a + b', net);
      if |u| > 0 {
        var e := Extract(u, net(u));
        assert Resolve(a + b, net) == (r.0 + e.0, r.1 + e.1);
        assert Resolve(b, net) == (q.0 + e.0, q.1 + e.1);
        AppendAssoc(p.0, q.0, e.0);
        AppendAssoc(p.1, q.1, e.1);
      } else {
        assert Resolve(a + b, net) == r;
        assert Resolve(b, net) == q;
      }
    } else {
      assert a + b == a;
    }
  }

  /** One URL resolved on its own. */
  lemma {:induction false} ResolveSingle(u: string, net: string -> Fetch)
    requires |u| > 0 ==> Resolvable(net(u))
    ensures AllResolvable([u], net)
    ensures Resolve([u], net) == if |u| > 0 then Extract(u, net(u)) else ([], [])
  {
    assert [u][..0] == [];
    assert Resolve([], net) == ([], []);
    if |u| > 0 {
      var e := Extract(u, net(u));
      assert [] + e.0 == e.0 && [] + e.1 == e.1;
    }
  }

  /** The URLs that are fetched: the non-empty ones. */
  function NonEmpty(urls: seq<string>): (r: seq<string>)
    ensures forall u :: u in r <==> u in urls && |u| > 0
  {
    if urls == [] then []
    else if |urls[0]| > 0 then [urls[0]] + NonEmpty(urls[1..])
    else NonEmpty(urls[1..])
  }

  /** Empty strings contribute nothing: resolving a list is resolving its non-empty URLs. */
  lemma {:induction false} ResolveSkipsEmpty(urls: seq<string>, net: string -> Fetch)
    requires AllResolvable(urls, net)
    ensures AllResolvable(NonEmpty(urls), net)
    ensures Resolve(NonEmpty(urls), net) == Resolve(urls, net)
  {
    var ne := NonEmpty(urls);
    assert AllResolvable(ne, net) by {
      forall k | 0 <= k < |ne| && |ne[k]| > 0 ensures Resolvable(net(ne[k])) {
        assert ne[k] in ne;
        var j :| 0 <= j < |urls| && urls[j] == ne[k];
      }
    }
    if urls != [] {
      var rest := urls[1..];
      assert urls == [urls[0]] + rest;
      assert AllResolvable(rest, net) by {
        forall k | 0 <= k < |rest| && |rest[k]| > 0 ensures Resolvable(net(rest[k])) { assert rest[k] == urls[k + 1]; }
      }
      ResolveSkipsEmpty(rest, net);
      ResolveAppend([urls[0]], rest, net);
      ResolveSingle(urls[0], net);
      if |urls[0]| > 0 {
        ResolveAppend([urls[0]], NonEmpty(rest), net);
      } else {
        assert Resolve([urls[0]], net).0 + Resolve(rest, net).0 == Resolve(rest, net).0;
        assert Resolve([urls[0]], net).1 + Resolve(rest, net).1 == Resolve(rest, net).1;
      }
    }
  }

  lemma {:induction false} NonEmptyOfBlanks(urls: seq<string>)
    requires forall k :: 0 <= k < |urls| ==> urls[k] == ""
    ensures NonEmpty(urls) == []
  {
    if urls != [] {
      assert forall k :: 0 <= k < |urls| - 1 ==> urls[1..][k] == "" by {
        forall k | 0 <= k < |urls| - 1 ensures urls[1..][k] == "" { assert urls[1..][k] == urls[k + 1]; }
      }
      NonEmptyOfBlanks(urls[1..]);
    }
  }

  /** A non-empty list of empty strings resolves to a batch that exists and is empty. */
  lemma {:induction false} BatchOfBlanks(urls: seq<string>, net: string -> Fetch)
    requires urls != [] && forall k :: 0 <= k < |urls| ==> urls[k] == ""
    ensures AllResolvable(urls, net)
    ensures Batch(urls, net) == Some([])
    ensures Resolve(urls, net).1 == []
  {
    NonEmptyOfBlanks(urls);
    ResolveSkipsEmpty(urls, net);
  }

  /** The batch holds, in URL order, exactly the items each non-empty URL's page yields. */
  lemma {:induction false} BatchIsConcatenation(u: string, urls: seq<string>, net: string -> Fetch)
    requires (|u| > 0 ==> Resolvable(net(u))) && AllResolvable(urls, net)
    ensures AllResolvable([u] + urls, net)
    ensures Batch([u] + urls, net) ==
              Some((if |u| > 0 then Extract(u, net(u)).0 else []) + Resolve(urls, net).0)
  {
    ResolveSingle(u, net);
    ResolveAppend([u], urls, net);
  }

  /** `decoded_download_urls`: the loop that extends `pending_downloads` URL by URL,
      returning the batch and the diagnostics pushed while resolving. */
  method DecodedDownloadUrls(urls: seq<string>, net: string -> Fetch)
    returns (downloads: Option<seq<Item>>, notices: seq<string>)
    requires AllResolvable(urls, net)
    ensures downloads.None? <==> urls == []
    ensures downloads == Batch(urls, net)
    ensures notices == Resolve(urls, net).1
  {
    if urls == [] {
      return None, [];
    }
    var pending: seq<Item> := [];
    notices := [];
    var i := 0;
    while i < |urls|
      invariant 0 <= i <= |urls|
      invariant AllResolvable(urls[..i], net)
      invariant (pending, notices) == Resolve(urls[..i], net)
    {
      var url := urls[i];
      assert urls[..i + 1][..i] == urls[..i];
      assert urls[..i + 1][i] == url;
      if |url| > 0 {
        var e := Extract(url, net(url));
        pending := pending + e.0;
        notices := notices + e.1;
      }
      i := i + 1;
    }
    assert urls[..i] == urls;
    downloads := Some(pending);
  }
}
