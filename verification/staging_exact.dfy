/** What a document asks for, and what exactly is staged and rewritten for it. */
module StagingExact {
  import opened Net
  import opened Staging
  import opened StagingRequests

  //--- places ------------------------------------------------------------------------------------

  /** Where host paths land: below the kitchen directory under `project`, by their
      relative path; anywhere else by name, under a digest of their directory. */
  lemma PlacesAre(hash: Path -> string, kitchenDir: Path, relative: Path, parent: Path, name: string)
    ensures relative != [] ==>
              GuestPath(hash, kitchenDir, kitchenDir + relative) == (["opt", "kitchen", "files", "project"] + relative, false)
    ensures !(kitchenDir < parent + [name]) ==>
              GuestPath(hash, kitchenDir, parent + [name]) == (["opt", "kitchen", "files", hash(parent), name], true)
    ensures GuestPath(hash, kitchenDir, []) == (["opt", "kitchen", "files", hash([]), "root"], true)
  {
    assert (kitchenDir + relative)[|kitchenDir|..] == relative;
    assert GUEST_FILES_DIR + [PROJECT_DIR] == ["opt", "kitchen", "files", "project"];
    assert (parent + [name])[..|parent|] == parent;
    assert GUEST_FILES_DIR + [hash(parent), name] == ["opt", "kitchen", "files", hash(parent), name];
    assert GUEST_FILES_DIR + [hash([]), "root"] == ["opt", "kitchen", "files", hash([]), "root"];
  }

  function NameOf(host: Path): string {
    if host == [] then "root" else host[|host| - 1]
  }

  function DirectoryOf(host: Path): Path {
    if host == [] then [] else host[..|host| - 1]
  }

  /** Two host paths land at the same place exactly when they are the same, or both
      lie elsewhere than in the kitchen directory, have the same name, and their
      directories the same digest. */
  lemma SamePlaceIff(hash: Path -> string, kitchenDir: Path, x: Path, y: Path)
    requires IsDigest(hash)
    ensures GuestPath(hash, kitchenDir, x).0 == GuestPath(hash, kitchenDir, y).0 <==>
              || x == y
              || (!Under(x, kitchenDir) && !Under(y, kitchenDir) && NameOf(x) == NameOf(y)
                  && hash(DirectoryOf(x)) == hash(DirectoryOf(y)))
  {
    var gx, gy := GuestPath(hash, kitchenDir, x).0, GuestPath(hash, kitchenDir, y).0;
    var n := |GUEST_FILES_DIR|;
    if Under(x, kitchenDir) && Under(y, kitchenDir) {
      assert gx[n + 1..] == x[|kitchenDir|..] && gy[n + 1..] == y[|kitchenDir|..];
      assert x == kitchenDir + x[|kitchenDir|..] && y == kitchenDir + y[|kitchenDir|..];
    } else {
      assert |gx[n]| == if Under(x, kitchenDir) then 7 else 8;
      assert |gy[n]| == if Under(y, kitchenDir) then 7 else 8;
      if !Under(x, kitchenDir) && !Under(y, kitchenDir) {
        assert gx[n..] == [hash(DirectoryOf(x)), NameOf(x)] && gy[n..] == [hash(DirectoryOf(y)), NameOf(y)];
      }
    }
  }

  //--- requests ----------------------------------------------------------------------------------

  predicate VariantAsks(key: string, exclude: seq<string>, gitManifest: bool, prefix: seq<Step>,
                        variants: seq<Option<string>>, n: nat, r: Request) {
    && n < |variants| && variants[n].Some?
    && r == Request(variants[n].value, Origin(key, Some(n)), exclude, gitManifest, false,
                    prefix + [Key("variants"), Index(n), Key("source")], false, None)
  }

  /** What one line of a file table asks for. */
  ghost predicate EntryAsks(table: string, target: string, item: Item, prefix: seq<Step>, r: Request) {
    var key := table + "." + "\"" + target + "\"";
    match item
    case Shorthand(text) => r == Request(text, Origin(key, None), [], false, false, prefix, false, None)
    case Entry(exclude, gitManifest, source, variants) =>
      || (source.Some?
          && r == Request(source.value, Origin(key, None), exclude, gitManifest, false, prefix + [Key("source")], false,
                          if gitManifest then Some(prefix + [Key("manifest")]) else None))
      || (exists n: nat :: VariantAsks(key, exclude, gitManifest, prefix, variants, n, r))
    case NotAnEntry => false
  }

  predicate RootAsks(root: Option<string>, dotfiles: Option<string>, r: Request) {
    var path := [Key("settings"), Key("dotfiles"), Key("root")];
    || (dotfiles.Some?
        && r == Request(dotfiles.value, Origin("_.microkitchen.dotfiles", None), [], false, true, path, true, None))
    || (dotfiles.None? && root.Some?
        && r == Request(root.value, Origin("settings.dotfiles.root", None), [], false, true, path, false, None))
  }

  lemma {:induction false} VariantsAsk(key: string, exclude: seq<string>, gitManifest: bool, prefix: seq<Step>,
                                       variants: seq<Option<string>>, r: Request)
    ensures r in VariantRequests(key, exclude, gitManifest, prefix, variants)
            <==> exists n: nat :: VariantAsks(key, exclude, gitManifest, prefix, variants, n, r)
  {
    if variants != [] {
      var m := |variants| - 1;
      VariantsAsk(key, exclude, gitManifest, prefix, variants[..m], r);
      forall n: nat | n < m
        ensures VariantAsks(key, exclude, gitManifest, prefix, variants, n, r)
                <==> VariantAsks(key, exclude, gitManifest, prefix, variants[..m], n, r)
      {
      }
      if n: nat :| VariantAsks(key, exclude, gitManifest, prefix, variants[..m], n, r) {
        assert VariantAsks(key, exclude, gitManifest, prefix, variants, n, r);
      }
      if r in VariantRequests(key, exclude, gitManifest, prefix, variants)
         && r !in VariantRequests(key, exclude, gitManifest, prefix, variants[..m]) {
        assert VariantAsks(key, exclude, gitManifest, prefix, variants, m, r);
      }
    }
  }

  lemma ItemAsks(table: string, target: string, item: Item, prefix: seq<Step>, r: Request)
    ensures r in RequestsOf(table, target, item, prefix) <==> EntryAsks(table, target, item, prefix, r)
  {
    assert KeyOf(table, target) == table + "." + "\"" + target + "\"";
    if item.Entry? {
      VariantsAsk(KeyOf(table, target), item.exclude, item.gitManifest, prefix, item.variants, r);
    }
  }

  ghost predicate LineAsks(entries: seq<(string, string, Item, seq<Step>)>, i: nat, r: Request) {
    i < |entries| && EntryAsks(entries[i].0, entries[i].1, entries[i].2, entries[i].3, r)
  }

  ghost predicate SomeLineAsks(entries: seq<(string, string, Item, seq<Step>)>, r: Request) {
    exists i: nat :: LineAsks(entries, i, r)
  }

  lemma LineAsksEarlier(entries: seq<(string, string, Item, seq<Step>)>, i: nat, r: Request)
    requires i < |entries| - 1
    ensures LineAsks(entries, i, r) <==> LineAsks(entries[..|entries| - 1], i, r)
  {
    assert entries[..|entries| - 1][i] == entries[i];
  }

  lemma OneMoreLine(entries: seq<(string, string, Item, seq<Step>)>, r: Request)
    requires entries != []
    ensures var m := |entries| - 1;
            SomeLineAsks(entries, r) <==> SomeLineAsks(entries[..m], r) || LineAsks(entries, m, r)
  {
    var m := |entries| - 1;
    if i: nat :| LineAsks(entries, i, r) {
      if i < m { LineAsksEarlier(entries, i, r); }
    }
    if i: nat :| LineAsks(entries[..m], i, r) {
      LineAsksEarlier(entries, i, r);
    }
  }

  lemma {:induction false} LinesAsk(entries: seq<(string, string, Item, seq<Step>)>, r: Request)
    ensures r in EntryRequests(entries) <==> SomeLineAsks(entries, r)
  {
    if entries != [] {
      var m := |entries| - 1;
      LinesAsk(entries[..m], r);
      OneMoreLine(entries, r);
      ItemAsks(entries[m].0, entries[m].1, entries[m].2, entries[m].3, r);
    }
  }

  /** A document asks for exactly this: every shorthand, every source and every
      variant's source of its file tables, and one root for the dotfiles, of which
      the kitchen's own wins over the document's. */
  lemma AskedIff(entries: seq<(string, string, Item, seq<Step>)>, root: Option<string>, dotfiles: Option<string>, r: Request)
    ensures r in EntryRequests(entries) + RootRequests(root, dotfiles)
            <==> SomeLineAsks(entries, r) || RootAsks(root, dotfiles, r)
  {
    LinesAsk(entries, r);
  }

  //--- rewrites ----------------------------------------------------------------------------------

  /** The request's own value becomes the place of its literal prefix with its
      pattern after it, created if need be; and its manifest goes. */
  predicate IsRewriteOf(cfg: Config, r: Request, w: Rewrite)
    requires cfg.resolve(r.text).Some?
  {
    var path := cfg.resolve(r.text).value;
    var place := GuestPath(cfg.hash, cfg.kitchenDir, path[..LiteralPrefix(path)]).0 + path[LiteralPrefix(path)..];
    || w == Rewrite(r.path, if r.create then Ensure(place) else Set(place))
    || (r.manifest.Some? && w == Rewrite(r.manifest.value, Remove))
  }

  ghost predicate RewrittenFor(cfg: Config, requests: seq<Request>, j: nat, w: Rewrite) {
    && j < |requests| && !RefusedAt(cfg, requests, j)
    && cfg.resolve(requests[j].text).Some? && IsRewriteOf(cfg, requests[j], w)
  }

  lemma RewritesAre(cfg: Config, r: Request, w: Rewrite)
    requires cfg.resolve(r.text).Some?
    ensures w in RewritesFor(cfg, r) <==> IsRewriteOf(cfg, r, w)
  {
  }

  /** The rewrites of a plan are exactly those of the requests that were not
      refused. */
  lemma RewrittenIff(cfg: Config, requests: seq<Request>, w: Rewrite)
    ensures w in CollectAll(cfg, requests).rewrites <==> exists j: nat :: RewrittenFor(cfg, requests, j, w)
  {
    if w in CollectAll(cfg, requests).rewrites {
      var i := RewritesAreAskedFor(cfg, requests, w);
      RewritesAre(cfg, requests[i], w);
      assert RewrittenFor(cfg, requests, i, w);
    }
    if j: nat :| RewrittenFor(cfg, requests, j, w) {
      EveryRequestIsAnswered(cfg, requests);
      assert Answered(cfg, requests, j, CollectAll(cfg, requests));
      RewritesAre(cfg, requests[j], w);
    }
  }

  /** The rewrites of the requests that were not refused, in their order. */
  ghost function RewritesInTurn(cfg: Config, requests: seq<Request>): seq<Rewrite> {
    if requests == [] then []
    else
      var n := |requests| - 1;
      RewritesInTurn(cfg, requests[..n])
      + if RefusedAt(cfg, requests, n) then [] else RewritesFor(cfg, requests[n])
  }

  lemma {:induction false} RewritesAreInTurn(cfg: Config, requests: seq<Request>)
    ensures CollectAll(cfg, requests).rewrites == RewritesInTurn(cfg, requests)
  {
    if requests != [] {
      RewritesAreInTurn(cfg, requests[..|requests| - 1]);
    }
  }

  //--- sources -----------------------------------------------------------------------------------

  function SourceOf(c: Collected, host: Path): StagedSource
    requires host in c.seen && c.seen[host] < |c.sources|
  {
    c.sources[c.seen[host]]
  }

  ghost predicate AllTracked(cfg: Config, requests: seq<Request>, m: nat, host: Path) {
    forall j: nat :: j < m && Stages(cfg, requests, j, host) ==> requests[j].gitManifest
  }

  ghost predicate AllExclude(cfg: Config, requests: seq<Request>, m: nat, host: Path, exclude: seq<string>) {
    forall j: nat :: j < m && Stages(cfg, requests, j, host) ==> requests[j].exclude == exclude
  }

  ghost predicate SomeRoot(cfg: Config, requests: seq<Request>, m: nat, host: Path) {
    exists j: nat :: j < m && Stages(cfg, requests, j, host) && requests[j].dotfilesRoot
  }

  /** The first of the requests for the host path. */
  ghost predicate StagesFirst(cfg: Config, requests: seq<Request>, j: nat, host: Path) {
    Stages(cfg, requests, j, host) && forall k: nat :: k < j ==> !Stages(cfg, requests, k, host)
  }

  ghost predicate FirstHas(cfg: Config, requests: seq<Request>, m: nat, host: Path, origin: Origin) {
    exists j: nat :: j < m && StagesFirst(cfg, requests, j, host) && requests[j].origin == origin
  }

  /** The source is what the first `m` requests for its host path make of it. */
  ghost predicate IsExactly(cfg: Config, requests: seq<Request>, m: nat, s: StagedSource) {
    && (s.guest, s.outside) == GuestPath(cfg.hash, cfg.kitchenDir, s.host)
    && (s.gitManifest <==> AllTracked(cfg, requests, m, s.host))
    && ExcludesExactly(cfg, requests, m, s.host, s.exclude)
    && (s.dotfilesRoot <==> SomeRoot(cfg, requests, m, s.host))
    && FirstHas(cfg, requests, m, s.host, s.origin)
  }

  /** An exclusion stays exactly when all requests share it. */
  ghost predicate ExcludesExactly(cfg: Config, requests: seq<Request>, m: nat, host: Path, exclude: seq<string>) {
    forall e: seq<string> {:trigger AllExclude(cfg, requests, m, host, e)} ::
      e != [] ==> (exclude == e <==> AllExclude(cfg, requests, m, host, e))
  }

  lemma TrackedUpTo(cfg: Config, requests: seq<Request>, m: nat, host: Path)
    requires m < |requests|
    ensures AllTracked(cfg, requests, m + 1, host)
            <==> AllTracked(cfg, requests, m, host) && (Stages(cfg, requests, m, host) ==> requests[m].gitManifest)
  {
  }

  lemma ExcludeUpTo(cfg: Config, requests: seq<Request>, m: nat, host: Path, e: seq<string>)
    requires m < |requests|
    ensures AllExclude(cfg, requests, m + 1, host, e)
            <==> AllExclude(cfg, requests, m, host, e) && (Stages(cfg, requests, m, host) ==> requests[m].exclude == e)
  {
  }

  lemma RootUpTo(cfg: Config, requests: seq<Request>, m: nat, host: Path)
    requires m < |requests|
    ensures SomeRoot(cfg, requests, m + 1, host)
            <==> SomeRoot(cfg, requests, m, host) || (Stages(cfg, requests, m, host) && requests[m].dotfilesRoot)
  {
  }

  lemma FirstUpTo(cfg: Config, requests: seq<Request>, m: nat, host: Path, origin: Origin)
    requires FirstHas(cfg, requests, m, host, origin)
    ensures FirstHas(cfg, requests, m + 1, host, origin)
  {
    var j: nat :| j < m && StagesFirst(cfg, requests, j, host) && requests[j].origin == origin;
    assert j < m + 1;
  }

  lemma ExcludesUpTo(cfg: Config, requests: seq<Request>, m: nat, host: Path, exclude: seq<string>)
    requires m < |requests| && ExcludesExactly(cfg, requests, m, host, exclude)
    ensures var after := if Stages(cfg, requests, m, host) && requests[m].exclude != exclude then [] else exclude;
            ExcludesExactly(cfg, requests, m + 1, host, after)
  {
    var n := m + 1;
    var after := if Stages(cfg, requests, m, host) && requests[m].exclude != exclude then [] else exclude;
    forall e: seq<string> | e != [] ensures after == e <==> AllExclude(cfg, requests, n, host, e) {
      ExcludeUpTo(cfg, requests, m, host, e);
      assert exclude == e <==> AllExclude(cfg, requests, m, host, e);
    }
  }

  lemma NotMoreRequests(cfg: Config, requests: seq<Request>, m: nat, s: StagedSource)
    requires m < |requests| && IsExactly(cfg, requests, m, s) && !Stages(cfg, requests, m, s.host)
    ensures IsExactly(cfg, requests, m + 1, s)
  {
    TrackedUpTo(cfg, requests, m, s.host);
    RootUpTo(cfg, requests, m, s.host);
    FirstUpTo(cfg, requests, m, s.host, s.origin);
    ExcludesUpTo(cfg, requests, m, s.host, s.exclude);
  }

  lemma MergedIs(s: StagedSource, r: Request)
    ensures var merged := Merge(s, r.exclude, r.gitManifest, r.dotfilesRoot);
            && merged.host == s.host && merged.guest == s.guest && merged.outside == s.outside && merged.origin == s.origin
            && merged.exclude == (if r.exclude != s.exclude then [] else s.exclude)
            && (merged.gitManifest <==> s.gitManifest && r.gitManifest)
            && (merged.dotfilesRoot <==> s.dotfilesRoot || r.dotfilesRoot)
  {
  }

  lemma OneRequestMerged(cfg: Config, requests: seq<Request>, m: nat, s: StagedSource, merged: StagedSource)
    requires m < |requests| && IsExactly(cfg, requests, m, s) && Stages(cfg, requests, m, s.host)
    requires merged == Merge(s, requests[m].exclude, requests[m].gitManifest, requests[m].dotfilesRoot)
    ensures IsExactly(cfg, requests, m + 1, merged)
  {
    MergedIs(s, requests[m]);
    TrackedUpTo(cfg, requests, m, s.host);
    RootUpTo(cfg, requests, m, s.host);
    FirstUpTo(cfg, requests, m, s.host, s.origin);
    ExcludesUpTo(cfg, requests, m, s.host, s.exclude);
  }

  lemma NoneBefore(cfg: Config, requests: seq<Request>, m: nat, host: Path, e: seq<string>)
    requires !StagedBefore(cfg, requests, m, host)
    ensures AllTracked(cfg, requests, m, host) && !SomeRoot(cfg, requests, m, host) && AllExclude(cfg, requests, m, host, e)
  {
  }

  lemma FirstRequest(cfg: Config, requests: seq<Request>, m: nat, s: StagedSource)
    requires m < |requests| && Stages(cfg, requests, m, s.host) && !StagedBefore(cfg, requests, m, s.host)
    requires (s.guest, s.outside) == GuestPath(cfg.hash, cfg.kitchenDir, s.host)
    requires s.origin == requests[m].origin && s.exclude == requests[m].exclude
    requires s.gitManifest == requests[m].gitManifest && s.dotfilesRoot == requests[m].dotfilesRoot
    ensures IsExactly(cfg, requests, m + 1, s)
  {
    TrackedUpTo(cfg, requests, m, s.host);
    RootUpTo(cfg, requests, m, s.host);
    NoneBefore(cfg, requests, m, s.host, []);
    assert StagesFirst(cfg, requests, m, s.host);
    var n := m + 1;
    forall e: seq<string> | e != [] ensures s.exclude == e <==> AllExclude(cfg, requests, n, s.host, e) {
      NoneBefore(cfg, requests, m, s.host, e);
      ExcludeUpTo(cfg, requests, m, s.host, e);
    }
  }

  /** What one request does to the source of a host path. */
  lemma SourceAfter(cfg: Config, c: Collected, r: Request, host: Path)
    requires IsRegistered(cfg, c) && host in Collect(cfg, c, r).seen
    ensures IsRegistered(cfg, Collect(cfg, c, r))
    ensures var s' := SourceOf(Collect(cfg, c, r), host);
            if Refused(cfg, c, r.text) || HostOf(cfg.resolve(r.text).value) != host then
              host in c.seen && s' == SourceOf(c, host)
            else if host in c.seen then s' == Merge(SourceOf(c, host), r.exclude, r.gitManifest, r.dotfilesRoot)
            else
              && s'.host == host && (s'.guest, s'.outside) == GuestPath(cfg.hash, cfg.kitchenDir, host)
              && s'.origin == r.origin && s'.exclude == r.exclude && s'.gitManifest == r.gitManifest
              && s'.dotfilesRoot == r.dotfilesRoot
  {
    CollectRegisters(cfg, c, r);
  }

  /** However its requests follow each other, the one source of a host path lands at
      its place, is kept to what git tracks exactly when all of them are, keeps an
      exclusion exactly when all of them share it, is the dotfiles' root exactly
      when one of them is, and is reported under the first of them. */
  lemma {:induction false} SourceIsExact(cfg: Config, requests: seq<Request>, m: nat, host: Path)
    requires m <= |requests| && host in CollectAll(cfg, requests[..m]).seen
    ensures IsExactly(cfg, requests, m, SourceOf(CollectAll(cfg, requests[..m]), host))
    decreases m
  {
    if m > 0 {
      var n := m - 1;
      OneRequestMore(cfg, requests, n);
      var before := CollectAll(cfg, requests[..n]);
      SourceAfter(cfg, before, requests[n], host);
      StagedIff(cfg, requests, n, host);
      var s := SourceOf(CollectAll(cfg, requests[..m]), host);
      if host in before.seen {
        SourceIsExact(cfg, requests, n, host);
        if Stages(cfg, requests, n, host) {
          OneRequestMerged(cfg, requests, n, SourceOf(before, host), s);
        } else {
          NotMoreRequests(cfg, requests, n, s);
        }
      } else {
        FirstRequest(cfg, requests, n, s);
      }
    }
  }

  //--- the plan ----------------------------------------------------------------------------------

  lemma {:induction false} KeptIsSorted(sorted: seq<StagedSource>)
    requires Sorted(sorted)
    ensures Sorted(Kept(sorted))
  {
    if sorted != [] {
      var n := |sorted| - 1;
      var kept := Kept(sorted[..n]);
      KeptIsSorted(sorted[..n]);
      forall i | 0 <= i < |kept| ensures !PathLess(sorted[n].host, kept[i].host) {
        KeptAreSources(sorted[..n], kept[i]);
      }
    }
  }

  /** A plan holds, for every host path that some request stages and no other source
      covers, exactly the source that its requests make, in the order of the host
      paths. */
  lemma PlanIsExact(cfg: Config, requests: seq<Request>, s: StagedSource)
    ensures var c := CollectAll(cfg, requests);
            var planned := Kept(SortByHost(c.sources));
            && Sorted(planned)
            && (s in planned ==> IsExactly(cfg, requests, |requests|, s) && StagedBefore(cfg, requests, |requests|, s.host))
            && (s in planned <==> s in c.sources && !Covered(c.sources, s))
  {
    var c := CollectAll(cfg, requests);
    SortSorts(c.sources);
    KeptIsSorted(SortByHost(c.sources));
    PlannedIff(c.sources, s);
    assert requests[..|requests|] == requests;
    if s in c.sources {
      var i :| 0 <= i < |c.sources| && c.sources[i] == s;
      assert c.seen[s.host] == i;
      SourceIsExact(cfg, requests, |requests|, s.host);
      StagedIff(cfg, requests, |requests|, s.host);
    }
  }
}
