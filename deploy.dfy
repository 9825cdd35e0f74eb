/** Deployment of downloaded workshop items: the filesystem is the set of paths that
    exist, a path being its sequence of components. */
module Deploy {
  import opened Wrappers
  import opened Text
  import opened Workshop

  type Path = seq<string>

  /** Every non-empty prefix of an existing path exists (a path's parents exist). */
  ghost predicate PrefixClosed(fs: set<Path>)
  {
    forall p, n :: p in fs && 0 < n <= |p| ==> p[..n] in fs
  }

  /** `downloads/<appname>`: made for every deployed item. */
  function AppDir(downloadsRoot: Path, it: Item): Path
  {
    downloadsRoot + [it.appname]
  }

  /** `downloads/<appname>/<name>`: where the item's files go. */
  function ItemDir(downloadsRoot: Path, it: Item): Path
  {
    AppDir(downloadsRoot, it) + [it.name]
  }

  /** `<content>/<appid>/<itemid>`: where the download tool leaves the item. */
  function SourceDir(contentRoot: Path, it: Item): Path
  {
    contentRoot + [NatToString(it.appid), NatToString(it.itemid)]
  }

  /** The paths a tree copy from `src` to `dst` adds to `fs`: `src` and everything below it,
      re-rooted at `dst`. */
  function Copied(fs: set<Path>, src: Path, dst: Path): (r: set<Path>)
    ensures forall p :: p in r <==> dst <= p && src + p[|dst|..] in fs
  {
    var r := set p | p in fs && src <= p :: dst + p[|src|..];
    assert forall p :: dst <= p && src + p[|dst|..] in fs ==> p in r by {
      forall p | dst <= p && src + p[|dst|..] in fs ensures p in r {
        var q := src + p[|dst|..];
        assert q[|src|..] == p[|dst|..];
        assert p == dst + q[|src|..];
      }
    }
    assert forall p :: p in r ==> dst <= p && src + p[|dst|..] in fs by {
      forall p | p in r ensures dst <= p && src + p[|dst|..] in fs {
        var q :| q in fs && src <= q && p == dst + q[|src|..];
        assert p[|dst|..] == q[|src|..];
        assert src + q[|src|..] == q;
      }
    }
    r
  }

  /** `deploy_downloaded_item`: the app folder is made first (it may already exist); if the
      item's source folder is missing nothing else happens; if the destination exists the
      copy fails with that path; otherwise the source tree is copied to the destination. */
  function DeployItem(fs: set<Path>, it: Item, contentRoot: Path, downloadsRoot: Path): (r: (set<Path>, Outcome<Path>))
    ensures var app := AppDir(downloadsRoot, it);
      var src := SourceDir(contentRoot, it);
      var dst := ItemDir(downloadsRoot, it);
      var made := fs + {app};
      && (r.1.Fail? <==> src in made && dst in made)
      && (r.1.Fail? ==> r.1.error == dst)
      && (forall p :: p in r.0 <==>
            p in made || (src in made && dst !in made && dst <= p && src + p[|dst|..] in made))
  {
    var app := AppDir(downloadsRoot, it);
    var made := fs + {app};
    var src := SourceDir(contentRoot, it);
    var dst := ItemDir(downloadsRoot, it);
    if src !in made then (made, Pass)
    else if dst in made then (made, Fail(dst))
    else (made + Copied(made, src, dst), Pass)
  }

  /** `deploy_all`: deploys the present items in order; the first failed copy aborts the rest. */
  function DeployAll(fs: set<Path>, items: seq<Option<Item>>, contentRoot: Path, downloadsRoot: Path): (set<Path>, Outcome<Path>)
    decreases |items|
  {
    if items == [] then (fs, Pass)
    else if items[0].None? then DeployAll(fs, items[1..], contentRoot, downloadsRoot)
    else
      var step := DeployItem(fs, items[0].value, contentRoot, downloadsRoot);
      if step.1.Fail? then step
      else DeployAll(step.0, items[1..], contentRoot, downloadsRoot)
  }

  /** An item whose source folder is missing only gains its app folder. */
  lemma {:induction false} DeployMissingSource(fs: set<Path>, it: Item, contentRoot: Path, downloadsRoot: Path)
    requires SourceDir(contentRoot, it) !in fs + {AppDir(downloadsRoot, it)}
    ensures DeployItem(fs, it, contentRoot, downloadsRoot) == (fs + {AppDir(downloadsRoot, it)}, Pass)
  {
  }

  /** A successful copy puts at the destination exactly the tree found at the source, when
      the parents of every existing path exist. */
  lemma {:induction false} DeployCopiesTree(fs: set<Path>, it: Item, contentRoot: Path, downloadsRoot: Path, q: Path)
    requires PrefixClosed(fs)
    requires SourceDir(contentRoot, it) in fs && ItemDir(downloadsRoot, it) !in fs
    ensures DeployItem(fs, it, contentRoot, downloadsRoot).1 == Pass
    ensures ItemDir(downloadsRoot, it) + q in DeployItem(fs, it, contentRoot, downloadsRoot).0
        <==> SourceDir(contentRoot, it) + q in fs + {AppDir(downloadsRoot, it)}
  {
    var src, dst := SourceDir(contentRoot, it), ItemDir(downloadsRoot, it);
    var p := dst + q;
    assert p[|dst|..] == q;
    assert dst <= p;
    assert p != AppDir(downloadsRoot, it);
  }

  /** Deploying keeps every path that existed before. */
  lemma {:induction false} DeployAllGrows(fs: set<Path>, items: seq<Option<Item>>, contentRoot: Path, downloadsRoot: Path)
    ensures fs <= DeployAll(fs, items, contentRoot, downloadsRoot).0
    decreases |items|
  {
    if items != [] {
      if items[0].None? {
        DeployAllGrows(fs, items[1..], contentRoot, downloadsRoot);
      } else {
        var step := DeployItem(fs, items[0].value, contentRoot, downloadsRoot);
        if step.1.Pass? {
          DeployAllGrows(step.0, items[1..], contentRoot, downloadsRoot);
        }
      }
    }
  }

  /** Deploying a list is deploying its first part, then (unless that failed) the rest. */
  lemma {:induction false} DeployAllAppend(fs: set<Path>, a: seq<Option<Item>>, b: seq<Option<Item>>, contentRoot: Path, downloadsRoot: Path)
    ensures var first := DeployAll(fs, a, contentRoot, downloadsRoot);
      DeployAll(fs, a + b, contentRoot, downloadsRoot) ==
        if first.1.Fail? then first else DeployAll(first.0, b, contentRoot, downloadsRoot)
    decreases |a|
  {
    if a == [] {
      assert a + b == b;
    } else {
      assert (a + b)[0] == a[0];
      assert (a + b)[1..] == a[1..] + b;
      if a[0].None? {
        DeployAllAppend(fs, a[1..], b, contentRoot, downloadsRoot);
      } else {
        var step := DeployItem(fs, a[0].value, contentRoot, downloadsRoot);
        if step.1.Pass? {
          DeployAllAppend(step.0, a[1..], b, contentRoot, downloadsRoot);
        }
      }
    }
  }

  /** Absent entries are skipped: deploying a list is deploying its present items in order. */
  lemma {:induction false} DeployAllSkipsAbsent(fs: set<Path>, items: seq<Option<Item>>, contentRoot: Path, downloadsRoot: Path)
    ensures DeployAll(fs, items, contentRoot, downloadsRoot) == DeployAll(fs, Wrap(Present(items)), contentRoot, downloadsRoot)
    decreases |items|
  {
    if items == [] {
      assert Wrap(Present(items)) == [];
    } else {
      var rest := Present(items[1..]);
      if items[0].None? {
        assert Present(items) == rest;
        DeployAllSkipsAbsent(fs, items[1..], contentRoot, downloadsRoot);
      } else {
        var w := Wrap(Present(items));
        assert Present(items) == [items[0].value] + rest;
        assert w[0] == items[0] && w[1..] == Wrap(rest);
        var step := DeployItem(fs, items[0].value, contentRoot, downloadsRoot);
        DeployAllSkipsAbsent(step.0, items[1..], contentRoot, downloadsRoot);
      }
    }
  }

  /** When every deployment succeeds, every present item's app folder exists afterwards. */
  lemma {:induction false} DeployAllMakesAppDirs(fs: set<Path>, items: seq<Option<Item>>, k: nat, contentRoot: Path, downloadsRoot: Path)
    requires k < |items| && items[k].Some?
    requires DeployAll(fs, items, contentRoot, downloadsRoot).1.Pass?
    ensures AppDir(downloadsRoot, items[k].value) in DeployAll(fs, items, contentRoot, downloadsRoot).0
    decreases |items|
  {
    var next := if items[0].None? then fs else DeployItem(fs, items[0].value, contentRoot, downloadsRoot).0;
    if k == 0 {
      DeployAllGrows(next, items[1..], contentRoot, downloadsRoot);
    } else {
      assert items[1..][k - 1] == items[k];
      DeployAllMakesAppDirs(next, items[1..], k - 1, contentRoot, downloadsRoot);
    }
  }

  /** Adding a folder whose parent exists keeps the parents of every path in place. */
  lemma {:induction false} MakeDirKeepsPrefixClosed(fs: set<Path>, dir: Path)
    requires PrefixClosed(fs) && dir != [] && (|dir| > 1 ==> dir[..|dir| - 1] in fs)
    ensures PrefixClosed(fs + {dir})
  {
    forall p, n | p in fs + {dir} && 0 < n <= |p| ensures p[..n] in fs + {dir} {
      if p in fs {
        assert p[..n] in fs;
      } else if n < |dir| {
        assert p[..n] == dir[..|dir| - 1][..n];
      } else {
        assert p[..n] == dir;
      }
    }
  }

  lemma {:induction false} PrefixOfAppend(x: Path, y: Path, m: nat)
    requires m <= |y|
    ensures (x + y)[..|x| + m] == x + y[..m]
  {
    forall k | 0 <= k < |x| + m ensures (x + y)[..|x| + m][k] == (x + y[..m])[k] {
      if k < |x| {
        assert (x + y)[k] == x[k];
      } else {
        assert (x + y)[k] == y[k - |x|];
      }
    }
  }

  /** A tree copy from an existing folder to a fresh one whose parent exists keeps the
      parents of every path in place. */
  lemma {:induction false} CopyKeepsPrefixClosed(fs: set<Path>, src: Path, dst: Path)
    requires PrefixClosed(fs) && src in fs && dst != [] && dst !in fs
    requires |dst| > 1 ==> dst[..|dst| - 1] in fs
    ensures PrefixClosed(fs + Copied(fs, src, dst))
  {
    var r := fs + Copied(fs, src, dst);
    forall p, n | p in r && 0 < n <= |p| ensures p[..n] in r {
      if p !in fs {
        assert dst <= p && src + p[|dst|..] in fs;
        if n < |dst| {
          assert p[..n] == dst[..|dst| - 1][..n];
        } else {
          var tail := p[|dst|..n];
          var whole := src + p[|dst|..];
          assert tail == p[|dst|..][..n - |dst|];
          PrefixOfAppend(src, p[|dst|..], n - |dst|);
          if tail != [] {
            assert src + tail in fs;
          } else {
            assert src + tail == src;
          }
          assert p[..n] == dst + tail;
          assert (dst + tail)[|dst|..] == tail;
        }
      }
    }
  }

  /** Deploying an item keeps the parents of every path in place, given that the downloads
      folder exists. */
  lemma {:induction false} DeployKeepsPrefixClosed(fs: set<Path>, it: Item, contentRoot: Path, downloadsRoot: Path)
    requires PrefixClosed(fs) && (downloadsRoot == [] || downloadsRoot in fs)
    ensures PrefixClosed(DeployItem(fs, it, contentRoot, downloadsRoot).0)
  {
    var app := AppDir(downloadsRoot, it);
    var made := fs + {app};
    var src, dst := SourceDir(contentRoot, it), ItemDir(downloadsRoot, it);
    assert app[..|app| - 1] == downloadsRoot;
    MakeDirKeepsPrefixClosed(fs, app);
    if src in made && dst !in made {
      assert dst[..|dst| - 1] == app;
      CopyKeepsPrefixClosed(made, src, dst);
    }
  }

  /** Deploying a whole batch keeps the parents of every path in place. */
  lemma {:induction false} DeployAllKeepsPrefixClosed(fs: set<Path>, items: seq<Option<Item>>, contentRoot: Path, downloadsRoot: Path)
    requires PrefixClosed(fs) && (downloadsRoot == [] || downloadsRoot in fs)
    ensures PrefixClosed(DeployAll(fs, items, contentRoot, downloadsRoot).0)
    decreases |items|
  {
    if items != [] {
      if items[0].None? {
        DeployAllKeepsPrefixClosed(fs, items[1..], contentRoot, downloadsRoot);
      } else {
        var step := DeployItem(fs, items[0].value, contentRoot, downloadsRoot);
        DeployKeepsPrefixClosed(fs, items[0].value, contentRoot, downloadsRoot);
        if step.1.Pass? {
          assert fs <= step.0;
          DeployAllKeepsPrefixClosed(step.0, items[1..], contentRoot, downloadsRoot);
        }
      }
    }
  }
}
