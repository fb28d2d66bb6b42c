/** Which host paths a kitchen file's sources need in the guest, where they land,
    and what each source is rewritten to. Paths are absolute and normalized:
    lists of components. */
module Staging {
  import opened Collections
  import opened Net

  type Path = seq<string>

  const GUEST_FILES_DIR: Path := ["opt", "kitchen", "files"]
  const PROJECT_DIR := "project"

  //--- guest paths -------------------------------------------------------------------------------

  /** A digest of a directory's path, as eight hex digits. */
  ghost predicate IsDigest(hash: Path -> string) {
    forall p :: |hash(p)| == 8
  }

  predicate Under(path: Path, dir: Path) {
    dir < path
  }

  /** The guest path of a host path; the flag is set for paths that lie elsewhere
      than in the kitchen directory. */
  function GuestPath(hash: Path -> string, kitchenDir: Path, host: Path): (Path, bool) {
    if Under(host, kitchenDir) then (GUEST_FILES_DIR + [PROJECT_DIR] + host[|kitchenDir|..], false)
    else
      var name := if host == [] then "root" else host[|host| - 1];
      var anchor := if host == [] then [] else host[..|host| - 1];
      (GUEST_FILES_DIR + [hash(anchor), name], true)
  }

  predicate IsGlob(component: string) {
    '*' in component || '?' in component || '[' in component
  }

  /** How many leading components are literal. */
  function LiteralPrefix(path: Path): (n: nat)
    ensures n <= |path|
    ensures forall i :: 0 <= i < n ==> !IsGlob(path[i])
    ensures n < |path| ==> IsGlob(path[n])
  {
    if path == [] || IsGlob(path[0]) then 0 else 1 + LiteralPrefix(path[1..])
  }

  function HostOf(path: Path): Path {
    path[..LiteralPrefix(path)]
  }

  function PatternOf(path: Path): Path {
    path[LiteralPrefix(path)..]
  }

  /** What a source is rewritten to: its literal prefix's guest path, then its
      pattern. */
  function RewriteOf(hash: Path -> string, kitchenDir: Path, path: Path): Path {
    GuestPath(hash, kitchenDir, HostOf(path)).0 + PatternOf(path)
  }

  /** Splits a path at its first glob component. */
  method SplitGlob(path: Path) returns (prefix: Path, rest: Path)
    ensures prefix == HostOf(path) && rest == PatternOf(path)
    ensures prefix + rest == path
    ensures forall k, c :: 0 <= k < |prefix| && c in prefix[k] ==> c !in "*?["
    ensures rest != [] ==> exists c :: c in rest[0] && c in "*?["
  {
    prefix, rest := [], [];
    for i := 0 to |path|
      invariant prefix + rest == path[..i]
      invariant forall k :: 0 <= k < |prefix| ==> !IsGlob(prefix[k])
      invariant rest != [] ==> IsGlob(rest[0])
    {
      if rest == [] && !IsGlob(path[i]) {
        prefix := prefix + [path[i]];
      } else {
        rest := rest + [path[i]];
      }
    }
    assert path[..|path|] == path;
    PrefixIsUnique(path, prefix, rest);
  }

  lemma PrefixIsUnique(path: Path, prefix: Path, rest: Path)
    requires prefix + rest == path
    requires forall k :: 0 <= k < |prefix| ==> !IsGlob(prefix[k])
    requires rest != [] ==> IsGlob(rest[0])
    ensures prefix == HostOf(path) && rest == PatternOf(path)
  {
    var n := LiteralPrefix(path);
    assert forall k :: 0 <= k < |prefix| ==> path[k] == prefix[k];
    assert n < |path| ==> IsGlob(path[n]);
    assert |prefix| < |path| ==> path[|prefix|] == rest[0];
  }

  //--- sources -----------------------------------------------------------------------------------

  /** Where in the file table a request stands. */
  datatype Origin = Origin(key: string, variant: Option<nat>)

  datatype StagedSource = StagedSource(
    host: Path,
    guest: Path,
    origin: Origin,
    exclude: seq<string>,
    gitManifest: bool,
    outside: bool,
    dotfilesRoot: bool
  )

  datatype Step = Key(key: string) | Index(index: nat)

  datatype Action = Set(guest: Path) | Ensure(guest: Path) | Remove

  datatype Rewrite = Rewrite(path: seq<Step>, action: Action)

  /** A host file system's view of one staged directory: which relative paths a
      pattern excludes and which git tracks. */
  datatype View = View(matches: (string, Path) -> bool, tracked: Path -> bool)

  /** The file is copied under these restrictions. */
  predicate Copied(view: View, exclude: seq<string>, gitManifest: bool, file: Path) {
    && (forall i :: 0 <= i < |exclude| ==> !view.matches(exclude[i], file))
    && (gitManifest ==> view.tracked(file))
  }

  /** Everything copied under the first restrictions is under the second. */
  ghost predicate Wider(exclude: seq<string>, gitManifest: bool, exclude': seq<string>, gitManifest': bool) {
    forall view: View, file :: Copied(view, exclude, gitManifest, file) ==> Copied(view, exclude', gitManifest', file)
  }

  function Merge(s: StagedSource, exclude: seq<string>, gitManifest: bool, dotfilesRoot: bool): StagedSource {
    s.(dotfilesRoot := s.dotfilesRoot || dotfilesRoot,
       exclude := if s.exclude != exclude then [] else s.exclude,
       gitManifest := s.gitManifest && gitManifest)
  }

  /** A merged source copies whatever either of the two would have copied. */
  lemma MergeNeverNarrows(s: StagedSource, exclude: seq<string>, gitManifest: bool, dotfilesRoot: bool)
    ensures var merged := Merge(s, exclude, gitManifest, dotfilesRoot);
            && Wider(s.exclude, s.gitManifest, merged.exclude, merged.gitManifest)
            && Wider(exclude, gitManifest, merged.exclude, merged.gitManifest)
  {
  }

  /** Sources are indexed by host, land where their host path says, and no two
      land at the same place. */
  ghost predicate Registered(hash: Path -> string, kitchenDir: Path, sources: seq<StagedSource>, seen: map<Path, nat>) {
    && (forall h :: h in seen ==> seen[h] < |sources| && sources[seen[h]].host == h)
    && (forall i :: 0 <= i < |sources| ==> sources[i].host in seen && seen[sources[i].host] == i)
    && (forall i :: 0 <= i < |sources| ==>
          (sources[i].guest, sources[i].outside) == GuestPath(hash, kitchenDir, sources[i].host))
    && (forall i, j :: 0 <= i < j < |sources| ==> sources[i].guest != sources[j].guest)
  }

  predicate Collides(sources: seq<StagedSource>, guest: Path, host: Path) {
    exists i :: 0 <= i < |sources| && sources[i].guest == guest && sources[i].host != host
  }

  /** The sources after a path was added. */
  ghost predicate Added(sources: seq<StagedSource>, sources': seq<StagedSource>, host: Path, exclude: seq<string>,
                        gitManifest: bool) {
    && |sources| <= |sources'| <= |sources| + 1
    && (forall i :: 0 <= i < |sources| ==>
          && sources'[i].host == sources[i].host && sources'[i].guest == sources[i].guest
          && Wider(sources[i].exclude, sources[i].gitManifest, sources'[i].exclude, sources'[i].gitManifest))
    && exists i :: 0 <= i < |sources'| && sources'[i].host == host
         && Wider(exclude, gitManifest, sources'[i].exclude, sources'[i].gitManifest)
  }

  lemma Merging(hash: Path -> string, kitchenDir: Path, sources: seq<StagedSource>, seen: map<Path, nat>, host: Path,
                exclude: seq<string>, gitManifest: bool, dotfilesRoot: bool)
    requires Registered(hash, kitchenDir, sources, seen) && host in seen
    ensures var sources' := sources[seen[host] := Merge(sources[seen[host]], exclude, gitManifest, dotfilesRoot)];
            && Registered(hash, kitchenDir, sources', seen)
            && Added(sources, sources', host, exclude, gitManifest)
  {
    var index := seen[host];
    var sources' := sources[index := Merge(sources[index], exclude, gitManifest, dotfilesRoot)];
    MergeNeverNarrows(sources[index], exclude, gitManifest, dotfilesRoot);
    assert sources'[index].host == host;
  }

  lemma Appending(hash: Path -> string, kitchenDir: Path, sources: seq<StagedSource>, seen: map<Path, nat>, s: StagedSource)
    requires Registered(hash, kitchenDir, sources, seen) && s.host !in seen
    requires (s.guest, s.outside) == GuestPath(hash, kitchenDir, s.host) && !Collides(sources, s.guest, s.host)
    ensures Registered(hash, kitchenDir, sources + [s], seen[s.host := |sources|])
    ensures Added(sources, sources + [s], s.host, s.exclude, s.gitManifest)
  {
    var sources' := sources + [s];
    assert sources'[|sources|] == s;
    forall i | 0 <= i < |sources| ensures sources[i].guest != s.guest {
      assert sources[i].host in seen;
    }
  }

  //--- what the document asks for ----------------------------------------------------------------

  datatype Item =
    | Shorthand(text: string)
    | Entry(exclude: seq<string>, gitManifest: bool, source: Option<string>, variants: seq<Option<string>>)
    | NotAnEntry

  /** One source to stage and the value to rewrite for it. `manifest` is a key to
      drop with it. */
  datatype Request = Request(
    text: string,
    origin: Origin,
    exclude: seq<string>,
    gitManifest: bool,
    dotfilesRoot: bool,
    path: seq<Step>,
    create: bool,
    manifest: Option<seq<Step>>
  )

  function VariantRequests(key: string, exclude: seq<string>, gitManifest: bool, prefix: seq<Step>,
                           variants: seq<Option<string>>): seq<Request> {
    if variants == [] then []
    else
      var n := |variants| - 1;
      VariantRequests(key, exclude, gitManifest, prefix, variants[..n])
      + (if variants[n].None? then []
         else
           [Request(variants[n].value, Origin(key, Some(n)), exclude, gitManifest, false,
                    prefix + [Key("variants"), Index(n), Key("source")], false, None)])
  }

  /** A source kept to what git tracks drops that condition in the guest, where
      the copy has no repository. */
  function SourceRequests(origin: Origin, exclude: seq<string>, gitManifest: bool, prefix: seq<Step>,
                          source: Option<string>): seq<Request> {
    if source.None? then []
    else
      [Request(source.value, origin, exclude, gitManifest, false, prefix + [Key("source")], false,
               if gitManifest then Some(prefix + [Key("manifest")]) else None)]
  }

  function KeyOf(table: string, target: string): string {
    table + ".\"" + target + "\""
  }

  function RequestsOf(table: string, target: string, item: Item, prefix: seq<Step>): seq<Request> {
    var origin := Origin(KeyOf(table, target), None);
    match item
    case NotAnEntry => []
    case Shorthand(text) => [Request(text, origin, [], false, false, prefix, false, None)]
    case Entry(exclude, gitManifest, source, variants) =>
      SourceRequests(origin, exclude, gitManifest, prefix, source)
      + VariantRequests(origin.key, exclude, gitManifest, prefix, variants)
  }

  function EntryRequests(entries: seq<(string, string, Item, seq<Step>)>): seq<Request> {
    if entries == [] then []
    else
      var n := |entries| - 1;
      EntryRequests(entries[..n]) + RequestsOf(entries[n].0, entries[n].1, entries[n].2, entries[n].3)
  }

  const ROOT_PATH := [Key("settings"), Key("dotfiles"), Key("root")]

  /** The root setting of the dotfiles, unless the kitchen names its own, which
      is then created. */
  function RootRequests(root: Option<string>, dotfiles: Option<string>): seq<Request> {
    if dotfiles.Some? then
      [Request(dotfiles.value, Origin("_.microkitchen.dotfiles", None), [], false, true, ROOT_PATH, true, None)]
    else if root.Some? then
      [Request(root.value, Origin("settings.dotfiles.root", None), [], false, true, ROOT_PATH, false, None)]
    else []
  }

  //--- collecting --------------------------------------------------------------------------------

  /** `errors` are the requests that were reported. */
  datatype Collected = Collected(
    sources: seq<StagedSource>,
    seen: map<Path, nat>,
    rewrites: seq<Rewrite>,
    errors: seq<Origin>
  )

  /** `resolve` is how a source's text resolves against the kitchen file's
      directory. */
  datatype Config = Config(resolve: string -> Option<Path>, hash: Path -> string, kitchenDir: Path)

  /** The text does not resolve, or another host path would land at the same place. */
  predicate Refused(cfg: Config, c: Collected, text: string) {
    || cfg.resolve(text).None?
    || var host := HostOf(cfg.resolve(text).value);
       host !in c.seen && Collides(c.sources, GuestPath(cfg.hash, cfg.kitchenDir, host).0, host)
  }

  function RewritesFor(cfg: Config, r: Request): seq<Rewrite>
    requires cfg.resolve(r.text).Some?
  {
    var guest := RewriteOf(cfg.hash, cfg.kitchenDir, cfg.resolve(r.text).value);
    [Rewrite(r.path, if r.create then Ensure(guest) else Set(guest))]
    + (if r.manifest.Some? then [Rewrite(r.manifest.value, Remove)] else [])
  }

  /** After a source was added: reported, merged into its host's, or new. */
  function Staged(cfg: Config, c: Collected, text: string, origin: Origin, exclude: seq<string>, gitManifest: bool,
                  dotfilesRoot: bool): Collected
    requires forall h :: h in c.seen ==> c.seen[h] < |c.sources|
  {
    if Refused(cfg, c, text) then c.(errors := c.errors + [origin])
    else
      var host := HostOf(cfg.resolve(text).value);
      var (guest, outside) := GuestPath(cfg.hash, cfg.kitchenDir, host);
      if host in c.seen then
        c.(sources := c.sources[c.seen[host] := Merge(c.sources[c.seen[host]], exclude, gitManifest, dotfilesRoot)])
      else
        c.(sources := c.sources + [StagedSource(host, guest, origin, exclude, gitManifest, outside, dotfilesRoot)],
           seen := c.seen[host := |c.sources|])
  }

  /** After one request. */
  function Collect(cfg: Config, c: Collected, r: Request): Collected
    requires forall h :: h in c.seen ==> c.seen[h] < |c.sources|
  {
    var staged := Staged(cfg, c, r.text, r.origin, r.exclude, r.gitManifest, r.dotfilesRoot);
    if Refused(cfg, c, r.text) then staged else staged.(rewrites := c.rewrites + RewritesFor(cfg, r))
  }

  ghost predicate IsRegistered(cfg: Config, c: Collected) {
    Registered(cfg.hash, cfg.kitchenDir, c.sources, c.seen)
  }

  lemma CollectRegisters(cfg: Config, c: Collected, r: Request)
    requires IsRegistered(cfg, c)
    ensures IsRegistered(cfg, Collect(cfg, c, r)) && c.seen.Keys <= Collect(cfg, c, r).seen.Keys
    ensures !Refused(cfg, c, r.text) ==>
              && HostOf(cfg.resolve(r.text).value) in Collect(cfg, c, r).seen
              && Added(c.sources, Collect(cfg, c, r).sources, HostOf(cfg.resolve(r.text).value), r.exclude, r.gitManifest)
  {
    if !Refused(cfg, c, r.text) {
      var host := HostOf(cfg.resolve(r.text).value);
      var (guest, outside) := GuestPath(cfg.hash, cfg.kitchenDir, host);
      if host in c.seen {
        Merging(cfg.hash, cfg.kitchenDir, c.sources, c.seen, host, r.exclude, r.gitManifest, r.dotfilesRoot);
      } else {
        Appending(cfg.hash, cfg.kitchenDir, c.sources, c.seen,
                  StagedSource(host, guest, r.origin, r.exclude, r.gitManifest, outside, r.dotfilesRoot));
      }
    }
  }

  lemma CollectIs(cfg: Config, c: Collected, r: Request)
    requires IsRegistered(cfg, c)
    ensures var staged := Staged(cfg, c, r.text, r.origin, r.exclude, r.gitManifest, r.dotfilesRoot);
            && staged.rewrites == c.rewrites
            && Collect(cfg, c, r)
               == if Refused(cfg, c, r.text) then staged else staged.(rewrites := c.rewrites + RewritesFor(cfg, r))
  {
  }

  const NOTHING := Collected([], map[], [], [])

  /** After all requests, in order. */
  ghost function CollectAll(cfg: Config, requests: seq<Request>): (c: Collected)
    ensures IsRegistered(cfg, c)
  {
    if requests == [] then NOTHING
    else
      var n := |requests| - 1;
      CollectRegisters(cfg, CollectAll(cfg, requests[..n]), requests[n]);
      Collect(cfg, CollectAll(cfg, requests[..n]), requests[n])
  }

  lemma OneMore(cfg: Config, requests: seq<Request>, r: Request)
    ensures CollectAll(cfg, requests + [r]) == Collect(cfg, CollectAll(cfg, requests), r)
  {
    assert (requests + [r])[..|requests|] == requests;
  }

  class Collector {
    const cfg: Config
    var sources: seq<StagedSource>
    var seen: map<Path, nat>
    var rewrites: seq<Rewrite>
    var errors: seq<Origin>
    /** The requests so far. */
    ghost var requests: seq<Request>

    constructor (cfg: Config)
      ensures Valid() && requests == [] && this.cfg == cfg
    {
      this.cfg := cfg;
      sources, seen, rewrites, errors, requests := [], map[], [], [], [];
    }

    function Contents(): Collected
      reads this
    {
      Collected(sources, seen, rewrites, errors)
    }

    ghost predicate Valid()
      reads this
    {
      Contents() == CollectAll(cfg, requests)
    }

    /** Registers a source; the result is what its value becomes, or `None` when
        it was reported instead. */
    method Add(text: string, origin: Origin, exclude: seq<string>, gitManifest: bool, dotfilesRoot: bool)
      returns (guest: Option<Path>)
      requires IsRegistered(cfg, Contents())
      modifies this`sources, this`seen, this`errors
      ensures Contents() == Staged(cfg, old(Contents()), text, origin, exclude, gitManifest, dotfilesRoot)
      ensures guest.None? <==> Refused(cfg, old(Contents()), text)
      ensures guest.Some? ==> guest.value == RewriteOf(cfg.hash, cfg.kitchenDir, cfg.resolve(text).value)
    {
      var resolved := cfg.resolve(text);
      if resolved.None? {
        errors := errors + [origin];
        return None;
      }
      var host, pattern := SplitGlob(resolved.value);
      var (target, outside) := GuestPath(cfg.hash, cfg.kitchenDir, host);
      if host in seen {
        sources := sources[seen[host] := Merge(sources[seen[host]], exclude, gitManifest, dotfilesRoot)];
      } else {
        if Collides(sources, target, host) {
          errors := errors + [origin];
          return None;
        }
        seen := seen[host := |sources|];
        sources := sources + [StagedSource(host, target, origin, exclude, gitManifest, outside, dotfilesRoot)];
      }
      guest := Some(target + pattern);
    }

    /** Adds a source and, unless it was reported, records its rewrites. */
    method Ask(r: Request)
      requires Valid()
      modifies this
      ensures Valid() && requests == old(requests) + [r]
    {
      OneMore(cfg, requests, r);
      CollectIs(cfg, Contents(), r);
      var guest := Add(r.text, r.origin, r.exclude, r.gitManifest, r.dotfilesRoot);
      if guest.Some? {
        PushRewrites(r, guest.value);
      }
      requests := requests + [r];
    }

    method PushRewrites(r: Request, guest: Path)
      requires cfg.resolve(r.text).Some? && guest == RewriteOf(cfg.hash, cfg.kitchenDir, cfg.resolve(r.text).value)
      modifies this`rewrites
      ensures rewrites == old(rewrites) + RewritesFor(cfg, r)
    {
      rewrites := rewrites + [Rewrite(r.path, if r.create then Ensure(guest) else Set(guest))];
      if r.manifest.Some? {
        rewrites := rewrites + [Rewrite(r.manifest.value, Remove)];
      }
    }

    /** Collects what one line of a file table asks for. */
    method AddEntry(table: string, target: string, item: Item, prefix: seq<Step>)
      requires Valid()
      modifies this
      ensures Valid() && requests == old(requests) + RequestsOf(table, target, item, prefix)
    {
      var origin := Origin(KeyOf(table, target), None);
      match item {
        case NotAnEntry =>
          assert requests + [] == requests;
        case Shorthand(text) =>
          Ask(Request(text, origin, [], false, false, prefix, false, None));
        case Entry(exclude, gitManifest, source, variants) =>
          ghost var before := requests;
          Associates(before, SourceRequests(origin, exclude, gitManifest, prefix, source),
                     VariantRequests(origin.key, exclude, gitManifest, prefix, variants));
          AddSource(origin, exclude, gitManifest, prefix, source);
          AddVariants(origin.key, exclude, gitManifest, prefix, variants);
      }
    }

    method AddSource(origin: Origin, exclude: seq<string>, gitManifest: bool, prefix: seq<Step>, source: Option<string>)
      requires Valid()
      modifies this
      ensures Valid() && requests == old(requests) + SourceRequests(origin, exclude, gitManifest, prefix, source)
    {
      if source.Some? {
        var manifest := if gitManifest then Some(prefix + [Key("manifest")]) else None;
        Ask(Request(source.value, origin, exclude, gitManifest, false, prefix + [Key("source")], false, manifest));
      }
    }

    /** Every variant's source, whatever its condition. */
    method AddVariants(key: string, exclude: seq<string>, gitManifest: bool, prefix: seq<Step>,
                       variants: seq<Option<string>>)
      requires Valid()
      modifies this
      ensures Valid() && requests == old(requests) + VariantRequests(key, exclude, gitManifest, prefix, variants)
    {
      for i := 0 to |variants|
        invariant Valid()
        invariant requests == old(requests) + VariantRequests(key, exclude, gitManifest, prefix, variants[..i])
      {
        assert variants[..i + 1][..i] == variants[..i];
        if variants[i].Some? {
          Ask(Request(variants[i].value, Origin(key, Some(i)), exclude, gitManifest, false,
                      prefix + [Key("variants"), Index(i), Key("source")], false, None));
        }
      }
      assert variants[..|variants|] == variants;
    }

    /** The whole plan: the entries of the file tables, then the root of the
        dotfiles; nested sources are dropped. Every rewrite still leads to a
        planned source. */
    method Plan(entries: seq<(string, string, Item, seq<Step>)>, root: Option<string>, dotfiles: Option<string>)
      returns (planned: seq<StagedSource>)
      requires Valid() && requests == []
      modifies this
      ensures Valid() && requests == EntryRequests(entries) + RootRequests(root, dotfiles)
      ensures planned == Kept(SortByHost(sources))
    {
      for i := 0 to |entries|
        invariant Valid() && requests == EntryRequests(entries[..i])
      {
        assert entries[..i + 1][..i] == entries[..i];
        AddEntry(entries[i].0, entries[i].1, entries[i].2, entries[i].3);
      }
      assert entries[..|entries|] == entries;
      if root.Some? && dotfiles.None? {
        Ask(Request(root.value, Origin("settings.dotfiles.root", None), [], false, true, ROOT_PATH, false, None));
      }
      if dotfiles.Some? {
        Ask(Request(dotfiles.value, Origin("_.microkitchen.dotfiles", None), [], false, true, ROOT_PATH, true, None));
      }
      planned := CollapseNested(sources);
    }
  }

  //--- nested sources ----------------------------------------------------------------------------

  /** The first is a proper ancestor that copies everything below it. */
  predicate Covers(a: StagedSource, d: StagedSource) {
    a.host != d.host && a.host <= d.host && a.exclude == [] && !a.gitManifest
  }

  predicate Covered(kept: seq<StagedSource>, d: StagedSource) {
    exists i :: 0 <= i < |kept| && Covers(kept[i], d)
  }

  /** The sources that no kept one before them covers. */
  function Kept(sorted: seq<StagedSource>): seq<StagedSource> {
    if sorted == [] then []
    else
      var n := |sorted| - 1;
      var kept := Kept(sorted[..n]);
      if Covered(kept, sorted[n]) then kept else kept + [sorted[n]]
  }

  method CollapseNested(sources: seq<StagedSource>) returns (keep: seq<StagedSource>)
    ensures keep == Kept(SortByHost(sources))
  {
    keep := [];
    var sorted := SortByHost(sources);
    for i := 0 to |sorted|
      invariant keep == Kept(sorted[..i])
    {
      assert sorted[..i + 1][..i] == sorted[..i];
      if !Covered(keep, sorted[i]) {
        keep := keep + [sorted[i]];
      }
    }
    assert sorted[..|sorted|] == sorted;
  }

  /** Every source is kept, or a kept one covers it. */
  lemma {:induction false} DroppedIsCovered(sorted: seq<StagedSource>, s: StagedSource)
    requires s in sorted
    ensures s in Kept(sorted) || Covered(Kept(sorted), s)
  {
    var n := |sorted| - 1;
    var kept := Kept(sorted[..n]);
    if s in sorted[..n] {
      DroppedIsCovered(sorted[..n], s);
      if i :| 0 <= i < |kept| && Covers(kept[i], s) {
        assert Kept(sorted)[i] == kept[i];
      }
    } else {
      assert s == sorted[n];
    }
  }

  lemma {:induction false} KeptAreSources(sorted: seq<StagedSource>, s: StagedSource)
    requires s in Kept(sorted)
    ensures s in sorted
  {
    var n := |sorted| - 1;
    if s in Kept(sorted[..n]) {
      KeptAreSources(sorted[..n], s);
    }
  }

  /** No source comes before one of its ancestors. */
  ghost predicate AncestorsFirst(sorted: seq<StagedSource>) {
    forall i, j :: 0 <= i < j < |sorted| ==> !(sorted[j].host < sorted[i].host)
  }

  /** Something before covers it exactly when something kept does. */
  lemma CoveredByKept(sorted: seq<StagedSource>, s: StagedSource)
    ensures Covered(Kept(sorted), s) <==> Covered(sorted, s)
  {
    var kept := Kept(sorted);
    if i :| 0 <= i < |kept| && Covers(kept[i], s) {
      KeptAreSources(sorted, kept[i]);
      var j :| 0 <= j < |sorted| && sorted[j] == kept[i];
    }
    if j :| 0 <= j < |sorted| && Covers(sorted[j], s) {
      DroppedIsCovered(sorted, sorted[j]);
      if sorted[j] in kept {
        var i :| 0 <= i < |kept| && kept[i] == sorted[j];
      } else {
        var i :| 0 <= i < |kept| && Covers(kept[i], sorted[j]);
        assert Covers(kept[i], s);
      }
    }
  }

  /** With ancestors first, exactly the sources without an unrestricted proper
      ancestor are kept: nothing is copied twice, and nothing else is dropped. */
  lemma {:induction false} KeptIff(sorted: seq<StagedSource>, s: StagedSource)
    requires AncestorsFirst(sorted)
    ensures s in Kept(sorted) <==> s in sorted && !Covered(sorted, s)
  {
    if sorted != [] {
      var n := |sorted| - 1;
      var front := sorted[..n];
      KeptIff(front, s);
      CoveredByKept(front, sorted[n]);
      assert s in sorted <==> s in front || s == sorted[n];
      if s in sorted {
        LastCoversNoOther(sorted, s);
      }
    }
  }

  lemma LastCoversNoOther(sorted: seq<StagedSource>, s: StagedSource)
    requires sorted != [] && AncestorsFirst(sorted) && s in sorted
    ensures Covered(sorted, s) <==> Covered(sorted[..|sorted| - 1], s)
  {
    var n := |sorted| - 1;
    if i :| 0 <= i < |sorted| && Covers(sorted[i], s) {
      var j :| 0 <= j < |sorted| && sorted[j] == s;
      assert sorted[i].host < sorted[j].host;
      assert sorted[..n][i] == sorted[i];
    }
    if i :| 0 <= i < n && Covers(sorted[..n][i], s) {
      assert Covers(sorted[i], s);
    }
  }

  //--- the order ---------------------------------------------------------------------------------

  predicate TextLess(a: string, b: string) {
    b != [] && (a == [] || a[0] < b[0] || (a[0] == b[0] && TextLess(a[1..], b[1..])))
  }

  /** Paths compare by components, a directory before what is in it. */
  predicate PathLess(a: Path, b: Path) {
    b != [] && (a == [] || TextLess(a[0], b[0]) || (a[0] == b[0] && PathLess(a[1..], b[1..])))
  }

  lemma {:induction false} TextOrder(a: string, b: string, c: string)
    ensures !TextLess(a, a)
    ensures TextLess(a, b) || a == b || TextLess(b, a)
    ensures TextLess(a, b) && TextLess(b, c) ==> TextLess(a, c)
  {
    if a != [] {
      TextOrder(a[1..], if b == [] then [] else b[1..], if c == [] then [] else c[1..]);
      if b != [] && a[0] == b[0] && a[1..] == b[1..] {
        assert a == [a[0]] + a[1..] && b == [b[0]] + b[1..];
      }
    }
  }

  lemma {:induction false} PathOrder(a: Path, b: Path, c: Path)
    ensures !PathLess(a, a)
    ensures PathLess(a, b) || a == b || PathLess(b, a)
    ensures PathLess(a, b) && PathLess(b, c) ==> PathLess(a, c)
  {
    if a != [] {
      PathOrder(a[1..], if b == [] then [] else b[1..], if c == [] then [] else c[1..]);
      TextOrder(a[0], if b == [] then [] else b[0], if c == [] then [] else c[0]);
      if b != [] && a[0] == b[0] && a[1..] == b[1..] {
        assert a == [a[0]] + a[1..] && b == [b[0]] + b[1..];
      }
    }
  }

  lemma {:induction false} AncestorsAreLess(a: Path, b: Path)
    requires a < b
    ensures PathLess(a, b)
  {
    if a != [] {
      AncestorsAreLess(a[1..], b[1..]);
    }
  }

  ghost predicate Sorted(sources: seq<StagedSource>) {
    forall i, j :: 0 <= i < j < |sources| ==> !PathLess(sources[j].host, sources[i].host)
  }

  /** The standard library's stable sort, by host. */
  function SortByHost(sources: seq<StagedSource>): seq<StagedSource> {
    if sources == [] then [] else Insert(SortByHost(sources[..|sources| - 1]), sources[|sources| - 1])
  }

  function Insert(sorted: seq<StagedSource>, s: StagedSource): seq<StagedSource> {
    if sorted == [] || !PathLess(s.host, sorted[|sorted| - 1].host) then sorted + [s]
    else Insert(sorted[..|sorted| - 1], s) + [sorted[|sorted| - 1]]
  }

  lemma {:induction false} InsertSorts(sorted: seq<StagedSource>, s: StagedSource)
    requires Sorted(sorted)
    ensures Sorted(Insert(sorted, s))
    ensures forall t :: t in Insert(sorted, s) <==> t in sorted || t == s
  {
    if sorted != [] {
      var n := |sorted| - 1;
      var last := sorted[n];
      if PathLess(s.host, last.host) {
        InsertSorts(sorted[..n], s);
        var front := Insert(sorted[..n], s);
        forall i | 0 <= i < |front| ensures !PathLess(last.host, front[i].host) {
          assert front[i] in front;
          PathOrder(last.host, front[i].host, last.host);
        }
        assert sorted == sorted[..n] + [last];
      } else {
        forall i | 0 <= i < n ensures !PathLess(s.host, sorted[i].host) {
          PathOrder(s.host, sorted[i].host, last.host);
          PathOrder(sorted[i].host, last.host, s.host);
        }
      }
    }
  }

  lemma {:induction false} SortSorts(sources: seq<StagedSource>)
    ensures Sorted(SortByHost(sources)) && AncestorsFirst(SortByHost(sources))
    ensures forall t :: t in SortByHost(sources) <==> t in sources
  {
    if sources != [] {
      var n := |sources| - 1;
      SortSorts(sources[..n]);
      InsertSorts(SortByHost(sources[..n]), sources[n]);
      assert sources == sources[..n] + [sources[n]];
    }
    var sorted := SortByHost(sources);
    forall i, j | 0 <= i < j < |sorted| && sorted[j].host < sorted[i].host ensures false {
      AncestorsAreLess(sorted[j].host, sorted[i].host);
    }
  }

  //--- what rewrites lead to ---------------------------------------------------------------------

  /** Following a kept source down the path that leads from it on the host. */
  predicate LeadsTo(kept: StagedSource, path: Path, guest: Path) {
    kept.host <= path && guest == kept.guest + path[|kept.host|..]
  }

  /** A kept source holds the path; the rewritten value finds it there exactly
      when that source is the path's own, or lies strictly under the kitchen. */
  predicate Reaches(planned: seq<StagedSource>, kitchenDir: Path, path: Path, guest: Path) {
    exists i :: 0 <= i < |planned| && Holds(planned[i], kitchenDir, path, guest)
  }

  predicate Holds(kept: StagedSource, kitchenDir: Path, path: Path, guest: Path) {
    && kept.host <= HostOf(path)
    && (kept.host != HostOf(path) ==> kept.exclude == [] && !kept.gitManifest)
    && (LeadsTo(kept, path, guest) <==> kept.host == HostOf(path) || Under(kept.host, kitchenDir))
  }

  /** Below a source strictly under the kitchen, guest paths follow host paths;
      below any other, they never do. */
  lemma NestedGuestPaths(hash: Path -> string, kitchenDir: Path, a: Path, d: Path, pattern: Path)
    requires IsDigest(hash) && a <= d
    ensures GuestPath(hash, kitchenDir, d).0 + pattern == GuestPath(hash, kitchenDir, a).0 + (d[|a|..] + pattern)
            <==> a == d || Under(a, kitchenDir)
  {
    var ga, gd := GuestPath(hash, kitchenDir, a).0, GuestPath(hash, kitchenDir, d).0;
    var n := |GUEST_FILES_DIR|;
    if a == d {
      assert d[|a|..] + pattern == pattern;
    } else if Under(a, kitchenDir) {
      assert d[|kitchenDir|..] == a[|kitchenDir|..] + d[|a|..];
      assert gd == ga + d[|a|..];
      assert gd + pattern == ga + (d[|a|..] + pattern);
    } else {
      if Under(d, kitchenDir) {
        assert (gd + pattern)[n] == PROJECT_DIR;
        assert (ga + (d[|a|..] + pattern))[n] == ga[n];
        assert |ga[n]| == 8;
      } else {
        assert |gd| == n + 2 && |ga| == n + 2;
        assert |gd + pattern| < |ga + (d[|a|..] + pattern)|;
      }
    }
  }

  lemma SourceReaches(hash: Path -> string, kitchenDir: Path, sources: seq<StagedSource>, seen: map<Path, nat>, path: Path)
    requires IsDigest(hash) && Registered(hash, kitchenDir, sources, seen) && HostOf(path) in seen
    ensures Reaches(Kept(SortByHost(sources)), kitchenDir, path, RewriteOf(hash, kitchenDir, path))
  {
    var host := HostOf(path);
    var own := sources[seen[host]];
    var sorted := SortByHost(sources);
    var kept := Kept(sorted);
    SortSorts(sources);
    assert own in sources;
    DroppedIsCovered(sorted, own);
    var i: nat;
    if own in kept {
      i :| 0 <= i < |kept| && kept[i] == own;
    } else {
      i :| 0 <= i < |kept| && Covers(kept[i], own);
    }
    KeptAreSources(sorted, kept[i]);
    KeptHolds(hash, kitchenDir, sources, seen, kept[i], path);
  }

  lemma KeptHolds(hash: Path -> string, kitchenDir: Path, sources: seq<StagedSource>, seen: map<Path, nat>,
                  kept: StagedSource, path: Path)
    requires IsDigest(hash) && Registered(hash, kitchenDir, sources, seen) && kept in sources
    requires kept.host <= HostOf(path)
    requires kept.host != HostOf(path) ==> kept.exclude == [] && !kept.gitManifest
    ensures Holds(kept, kitchenDir, path, RewriteOf(hash, kitchenDir, path))
  {
    var host := HostOf(path);
    NestedGuestPaths(hash, kitchenDir, kept.host, host, PatternOf(path));
    SuffixOfPath(kept.host, path);
    assert kept.guest == GuestPath(hash, kitchenDir, kept.host).0;
  }

  lemma SuffixOfPath(a: Path, path: Path)
    requires a <= HostOf(path)
    ensures a <= path && path[|a|..] == HostOf(path)[|a|..] + PatternOf(path)
  {
    var n := LiteralPrefix(path);
    assert path[|a|..] == path[..n][|a|..] + path[n..];
  }

  /** The planned sources are exactly those without an unrestricted proper
      ancestor among all. */
  lemma PlannedIff(sources: seq<StagedSource>, s: StagedSource)
    ensures s in Kept(SortByHost(sources)) <==> s in sources && !Covered(sources, s)
  {
    var sorted := SortByHost(sources);
    SortSorts(sources);
    KeptIff(sorted, s);
    SameCovered(sorted, sources, s);
    SameCovered(sources, sorted, s);
  }

  lemma SameCovered(some: seq<StagedSource>, others: seq<StagedSource>, s: StagedSource)
    requires forall t :: t in some ==> t in others
    ensures Covered(some, s) ==> Covered(others, s)
  {
    if i :| 0 <= i < |some| && Covers(some[i], s) {
      assert some[i] in others;
      var j :| 0 <= j < |others| && others[j] == some[i];
    }
  }

  /** So a source below another one outside the kitchen is rewritten to a place
      where nothing is copied. */
  lemma OutsideAncestorDangles(cfg: Config, a: Request, b: Request)
    requires IsDigest(cfg.hash) && cfg.kitchenDir == ["p"]
    requires cfg.resolve(a.text) == Some(["etc"]) && a.exclude == [] && !a.gitManifest
    requires cfg.resolve(b.text) == Some(["etc", "app"]) && !b.create
    ensures var c := CollectAll(cfg, [a, b]);
            var guest := RewriteOf(cfg.hash, cfg.kitchenDir, ["etc", "app"]);
            && c.errors == [] && Rewrite(b.path, Set(guest)) in c.rewrites
            && forall s :: s in Kept(SortByHost(c.sources)) ==> s.host == ["etc"] && !LeadsTo(s, ["etc", "app"], guest)
  {
    var etc, app: Path := ["etc"], ["etc", "app"];
    var c := CollectAll(cfg, [a, b]);
    TwoSources(cfg, a, b);
    forall s | s in Kept(SortByHost(c.sources))
      ensures s.host == etc && !LeadsTo(s, app, RewriteOf(cfg.hash, cfg.kitchenDir, app))
    {
      OuterSource(cfg, c, s);
    }
  }

  lemma OuterSource(cfg: Config, c: Collected, s: StagedSource)
    requires IsDigest(cfg.hash) && cfg.kitchenDir == ["p"] && IsRegistered(cfg, c)
    requires |c.sources| == 2 && c.sources[0].host == ["etc"] && c.sources[1].host == ["etc", "app"]
    requires c.sources[0].exclude == [] && !c.sources[0].gitManifest
    requires s in Kept(SortByHost(c.sources))
    ensures s.host == ["etc"] && !LeadsTo(s, ["etc", "app"], RewriteOf(cfg.hash, cfg.kitchenDir, ["etc", "app"]))
  {
    PlannedIff(c.sources, s);
    assert Covers(c.sources[0], c.sources[1]);
    LiteralPath(["etc", "app"]);
    KeptHolds(cfg.hash, cfg.kitchenDir, c.sources, c.seen, s, ["etc", "app"]);
  }

  lemma TwoSources(cfg: Config, a: Request, b: Request)
    requires IsDigest(cfg.hash) && cfg.kitchenDir == ["p"]
    requires cfg.resolve(a.text) == Some(["etc"]) && a.exclude == [] && !a.gitManifest
    requires cfg.resolve(b.text) == Some(["etc", "app"]) && !b.create
    ensures var c := CollectAll(cfg, [a, b]);
            && c.errors == []
            && Rewrite(b.path, Set(RewriteOf(cfg.hash, cfg.kitchenDir, ["etc", "app"]))) in c.rewrites
            && |c.sources| == 2 && c.sources[0].host == ["etc"] && c.sources[1].host == ["etc", "app"]
            && c.sources[0].exclude == [] && !c.sources[0].gitManifest
  {
    var etc, app: Path := ["etc"], ["etc", "app"];
    LiteralPath(etc);
    LiteralPath(app);
    OneMore(cfg, [], a);
    OneMore(cfg, [a], b);
    assert [] + [a] == [a] && [a] + [b] == [a, b];
    PlacesDiffer(cfg.hash, cfg.kitchenDir);
    assert Rewrite(b.path, Set(RewriteOf(cfg.hash, cfg.kitchenDir, app))) in RewritesFor(cfg, b);
  }

  lemma PlacesDiffer(hash: Path -> string, kitchenDir: Path)
    requires kitchenDir == ["p"]
    ensures GuestPath(hash, kitchenDir, ["etc"]).0 != GuestPath(hash, kitchenDir, ["etc", "app"]).0
  {
    assert GuestPath(hash, kitchenDir, ["etc"]).0[|GUEST_FILES_DIR| + 1] == "etc";
    assert GuestPath(hash, kitchenDir, ["etc", "app"]).0[|GUEST_FILES_DIR| + 1] == "app";
    assert "etc" != "app" by { assert "etc"[0] != "app"[0]; }
  }

  lemma LiteralPath(path: Path)
    requires path == ["etc"] || path == ["etc", "app"]
    ensures HostOf(path) == path && PatternOf(path) == []
  {
    var n := LiteralPrefix(path);
    assert !IsGlob("etc") && !IsGlob("app");
  }
}
