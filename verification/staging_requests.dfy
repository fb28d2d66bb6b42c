/** What each request for a source gets out of a plan. */
module StagingRequests {
  import opened Staging

  //--- refusals ----------------------------------------------------------------------------------

  /** Request `k` was refused when its turn came. */
  ghost predicate RefusedAt(cfg: Config, requests: seq<Request>, k: nat)
    requires k < |requests|
  {
    Refused(cfg, CollectAll(cfg, requests[..k]), requests[k].text)
  }

  /** Request `j` was taken up, for this host path. */
  ghost predicate Stages(cfg: Config, requests: seq<Request>, j: nat, host: Path) {
    j < |requests| && !RefusedAt(cfg, requests, j) && HostOf(cfg.resolve(requests[j].text).value) == host
  }

  lemma OneRequestMore(cfg: Config, requests: seq<Request>, m: nat)
    requires m < |requests|
    ensures CollectAll(cfg, requests[..m + 1]) == Collect(cfg, CollectAll(cfg, requests[..m]), requests[m])
  {
    assert requests[..m + 1][..m] == requests[..m];
  }

  /** One of the first `m` requests was taken up for this host path. */
  ghost predicate StagedBefore(cfg: Config, requests: seq<Request>, m: nat, host: Path) {
    exists j: nat :: j < m && Stages(cfg, requests, j, host)
  }

  lemma SeenAfter(cfg: Config, c: Collected, r: Request, host: Path)
    requires IsRegistered(cfg, c)
    ensures host in Collect(cfg, c, r).seen
            <==> host in c.seen || (!Refused(cfg, c, r.text) && HostOf(cfg.resolve(r.text).value) == host)
  {
  }

  lemma StagedUpTo(cfg: Config, requests: seq<Request>, m: nat, host: Path)
    ensures StagedBefore(cfg, requests, m + 1, host)
            <==> StagedBefore(cfg, requests, m, host) || Stages(cfg, requests, m, host)
  {
  }

  lemma {:induction false} StagedIff(cfg: Config, requests: seq<Request>, m: nat, host: Path)
    requires m <= |requests|
    ensures host in CollectAll(cfg, requests[..m]).seen <==> StagedBefore(cfg, requests, m, host)
  {
    if m > 0 {
      StagedIff(cfg, requests, m - 1, host);
      StagedUpTo(cfg, requests, m - 1, host);
      OneRequestMore(cfg, requests, m - 1);
      SeenAfter(cfg, CollectAll(cfg, requests[..m - 1]), requests[m - 1], host);
    }
  }

  /** The two requests are for different host paths that land at one place. */
  predicate Clash(cfg: Config, a: Request, b: Request) {
    && cfg.resolve(a.text).Some? && cfg.resolve(b.text).Some?
    && var x, y := HostOf(cfg.resolve(a.text).value), HostOf(cfg.resolve(b.text).value);
       x != y && GuestPath(cfg.hash, cfg.kitchenDir, x).0 == GuestPath(cfg.hash, cfg.kitchenDir, y).0
  }

  ghost predicate ClashesBefore(cfg: Config, requests: seq<Request>, j: nat, k: nat)
    requires k < |requests|
  {
    j < k && !RefusedAt(cfg, requests, j) && Clash(cfg, requests[j], requests[k])
  }

  /** A request is refused exactly when its text does not resolve, or an earlier
      one that was not refused took its place in the guest for another host path. */
  lemma RefusedIff(cfg: Config, requests: seq<Request>, k: nat)
    requires k < |requests|
    ensures RefusedAt(cfg, requests, k)
            <==> cfg.resolve(requests[k].text).None? || exists j: nat :: ClashesBefore(cfg, requests, j, k)
  {
    if cfg.resolve(requests[k].text).Some? {
      var c := CollectAll(cfg, requests[..k]);
      var host := HostOf(cfg.resolve(requests[k].text).value);
      var guest := GuestPath(cfg.hash, cfg.kitchenDir, host).0;
      if Collides(c.sources, guest, host) {
        var i :| 0 <= i < |c.sources| && c.sources[i].guest == guest && c.sources[i].host != host;
        StagedIff(cfg, requests, k, c.sources[i].host);
        var j: nat :| j < k && Stages(cfg, requests, j, c.sources[i].host);
        assert ClashesBefore(cfg, requests, j, k);
      }
      if j: nat :| ClashesBefore(cfg, requests, j, k) {
        ClashCollides(cfg, requests, j, k);
      }
    }
  }

  lemma ClashCollides(cfg: Config, requests: seq<Request>, j: nat, k: nat)
    requires k < |requests| && ClashesBefore(cfg, requests, j, k)
    ensures RefusedAt(cfg, requests, k)
  {
    var other := HostOf(cfg.resolve(requests[j].text).value);
    assert Stages(cfg, requests, j, other);
    StagedIff(cfg, requests, k, other);
    TakenPlace(cfg, CollectAll(cfg, requests[..k]), requests[j], requests[k]);
  }

  lemma TakenPlace(cfg: Config, c: Collected, a: Request, b: Request)
    requires IsRegistered(cfg, c) && Clash(cfg, a, b) && HostOf(cfg.resolve(a.text).value) in c.seen
    ensures Refused(cfg, c, b.text)
  {
    var host := HostOf(cfg.resolve(b.text).value);
    var i := c.seen[HostOf(cfg.resolve(a.text).value)];
    assert c.sources[i].guest == GuestPath(cfg.hash, cfg.kitchenDir, host).0 && c.sources[i].host != host;
    OnePlaceEach(cfg, c, host, c.sources[i].host);
  }

  lemma OnePlaceEach(cfg: Config, c: Collected, x: Path, y: Path)
    requires IsRegistered(cfg, c)
    ensures x in c.seen && y in c.seen && GuestPath(cfg.hash, cfg.kitchenDir, x).0 == GuestPath(cfg.hash, cfg.kitchenDir, y).0 ==>
              x == y
  {
    if x in c.seen && y in c.seen {
      var i, j := c.seen[x], c.seen[y];
      assert c.sources[i].guest == c.sources[j].guest ==> i == j;
    }
  }

  //--- reports and rewrites ----------------------------------------------------------------------

  /** How many requests were refused. */
  ghost function Refusals(cfg: Config, requests: seq<Request>): nat {
    if requests == [] then 0
    else
      var n := |requests| - 1;
      Refusals(cfg, requests[..n]) + if RefusedAt(cfg, requests, n) then 1 else 0
  }

  predicate FulfilsOne(cfg: Config, c: Collected, r: Request, w: Rewrite) {
    cfg.resolve(r.text).Some? && w in RewritesFor(cfg, r) && HostOf(cfg.resolve(r.text).value) in c.seen
  }

  /** All the request's rewrites are there, and its host path is staged. */
  ghost predicate Served(cfg: Config, c: Collected, r: Request) {
    && cfg.resolve(r.text).Some?
    && forall w :: w in RewritesFor(cfg, r) ==> w in c.rewrites && FulfilsOne(cfg, c, r, w)
  }

  lemma ServedStays(cfg: Config, c: Collected, r: Request, more: Request)
    requires IsRegistered(cfg, c) && Served(cfg, c, r)
    ensures Served(cfg, Collect(cfg, c, more), r)
  {
    CollectRegisters(cfg, c, more);
    forall w | w in RewritesFor(cfg, r)
      ensures w in Collect(cfg, c, more).rewrites && FulfilsOne(cfg, Collect(cfg, c, more), r, w)
    {
      assert w in c.rewrites && FulfilsOne(cfg, c, r, w);
    }
  }

  lemma {:induction false} ReportsAreRefusals(cfg: Config, requests: seq<Request>)
    ensures |CollectAll(cfg, requests).errors| == Refusals(cfg, requests)
  {
    if requests != [] {
      ReportsAreRefusals(cfg, requests[..|requests| - 1]);
    }
  }

  /** The report at the request's turn among the refused is its own. */
  ghost predicate Reported(cfg: Config, requests: seq<Request>, k: nat, c: Collected)
    requires k < |requests|
  {
    Refusals(cfg, requests[..k]) < |c.errors| && c.errors[Refusals(cfg, requests[..k])] == requests[k].origin
  }

  ghost predicate Answered(cfg: Config, requests: seq<Request>, k: nat, c: Collected)
    requires k < |requests|
  {
    if RefusedAt(cfg, requests, k) then Reported(cfg, requests, k, c) else Served(cfg, c, requests[k])
  }

  lemma ReportsStay(cfg: Config, c: Collected, more: Request)
    requires IsRegistered(cfg, c)
    ensures c.errors <= Collect(cfg, c, more).errors
  {
  }

  lemma AnsweredStays(cfg: Config, requests: seq<Request>, k: nat, c: Collected, more: Request)
    requires k < |requests| && IsRegistered(cfg, c) && Answered(cfg, requests, k, c)
    ensures Answered(cfg, requests, k, Collect(cfg, c, more))
  {
    if RefusedAt(cfg, requests, k) {
      ReportsStay(cfg, c, more);
    } else {
      ServedStays(cfg, c, requests[k], more);
    }
  }

  lemma AnsweredAtFirst(cfg: Config, requests: seq<Request>, k: nat)
    requires k < |requests|
    ensures Answered(cfg, requests, k, Collect(cfg, CollectAll(cfg, requests[..k]), requests[k]))
  {
    var c := CollectAll(cfg, requests[..k]);
    ReportsAreRefusals(cfg, requests[..k]);
    CollectRegisters(cfg, c, requests[k]);
  }

  lemma {:induction false} AnsweredInTurn(cfg: Config, requests: seq<Request>, k: nat, m: nat)
    requires k < m <= |requests|
    ensures Answered(cfg, requests, k, CollectAll(cfg, requests[..m]))
    decreases m
  {
    OneRequestMore(cfg, requests, m - 1);
    if m == k + 1 {
      AnsweredAtFirst(cfg, requests, k);
    } else {
      AnsweredInTurn(cfg, requests, k, m - 1);
      AnsweredStays(cfg, requests, k, CollectAll(cfg, requests[..m - 1]), requests[m - 1]);
    }
  }

  /** A refused request has a report of its own, at its turn among the refused;
      there are no other reports. Any other request has all its rewrites. */
  lemma EveryRequestIsAnswered(cfg: Config, requests: seq<Request>)
    ensures |CollectAll(cfg, requests).errors| == Refusals(cfg, requests)
    ensures forall k: nat :: k < |requests| ==> Answered(cfg, requests, k, CollectAll(cfg, requests))
  {
    ReportsAreRefusals(cfg, requests);
    forall k: nat | k < |requests| ensures Answered(cfg, requests, k, CollectAll(cfg, requests)) {
      AnsweredInTurn(cfg, requests, k, |requests|);
      assert requests[..|requests|] == requests;
    }
  }

  /** Request `i` was taken up and asks for the rewrite. */
  ghost predicate Serves(cfg: Config, requests: seq<Request>, i: nat, w: Rewrite) {
    && i < |requests| && !RefusedAt(cfg, requests, i)
    && FulfilsOne(cfg, CollectAll(cfg, requests), requests[i], w)
  }

  lemma FulfilledStays(cfg: Config, c: Collected, r: Request, w: Rewrite, more: Request)
    requires IsRegistered(cfg, c) && FulfilsOne(cfg, c, r, w)
    ensures FulfilsOne(cfg, Collect(cfg, c, more), r, w)
  {
    CollectRegisters(cfg, c, more);
  }

  lemma AsksHere(cfg: Config, c: Collected, r: Request, w: Rewrite)
    requires IsRegistered(cfg, c) && w in Collect(cfg, c, r).rewrites && w !in c.rewrites
    ensures !Refused(cfg, c, r.text) && FulfilsOne(cfg, Collect(cfg, c, r), r, w)
  {
    CollectRegisters(cfg, c, r);
  }

  lemma {:induction false} AskedFor(cfg: Config, requests: seq<Request>, m: nat, w: Rewrite) returns (i: nat)
    requires m <= |requests| && w in CollectAll(cfg, requests[..m]).rewrites
    ensures i < m && !RefusedAt(cfg, requests, i) && FulfilsOne(cfg, CollectAll(cfg, requests[..m]), requests[i], w)
    decreases m
  {
    OneRequestMore(cfg, requests, m - 1);
    var before := CollectAll(cfg, requests[..m - 1]);
    if w in before.rewrites {
      i := AskedFor(cfg, requests, m - 1, w);
      FulfilledStays(cfg, before, requests[i], w, requests[m - 1]);
    } else {
      AsksHere(cfg, before, requests[m - 1], w);
      i := m - 1;
    }
  }

  /** There are no rewrites but those of requests that were not refused. */
  lemma RewritesAreAskedFor(cfg: Config, requests: seq<Request>, w: Rewrite) returns (i: nat)
    requires w in CollectAll(cfg, requests).rewrites
    ensures Serves(cfg, requests, i, w)
  {
    assert requests[..|requests|] == requests;
    i := AskedFor(cfg, requests, |requests|, w);
  }

  /** Every rewritten value of a plan leads to a planned source: its own, or an
      unrestricted ancestor; and it names the file's place in that copy exactly
      when the source is its own or lies strictly under the kitchen. */
  lemma RewritesReach(cfg: Config, requests: seq<Request>, w: Rewrite)
    returns (i: nat)
    requires IsDigest(cfg.hash)
    requires w in CollectAll(cfg, requests).rewrites && !w.action.Remove?
    ensures Serves(cfg, requests, i, w) && w.path == requests[i].path
    ensures Reaches(Kept(SortByHost(CollectAll(cfg, requests).sources)), cfg.kitchenDir,
                    cfg.resolve(requests[i].text).value, w.action.guest)
  {
    i := RewritesAreAskedFor(cfg, requests, w);
    RequestReaches(cfg, CollectAll(cfg, requests), requests[i], w);
  }

  lemma RequestReaches(cfg: Config, c: Collected, r: Request, w: Rewrite)
    requires IsDigest(cfg.hash) && IsRegistered(cfg, c)
    requires FulfilsOne(cfg, c, r, w) && !w.action.Remove?
    ensures w.path == r.path
    ensures Reaches(Kept(SortByHost(c.sources)), cfg.kitchenDir, cfg.resolve(r.text).value, w.action.guest)
  {
    SourceReaches(cfg.hash, cfg.kitchenDir, c.sources, c.seen, cfg.resolve(r.text).value);
  }

  //--- what is copied ----------------------------------------------------------------------------

  /** The source copies whatever the request would have: it is the request's own
      and at least as wide, or an unrestricted ancestor. */
  ghost predicate Carries(s: StagedSource, r: Request, host: Path) {
    && s.host <= host
    && if s.host == host then Wider(r.exclude, r.gitManifest, s.exclude, s.gitManifest)
       else s.exclude == [] && !s.gitManifest
  }

  ghost predicate Carried(sources: seq<StagedSource>, r: Request, host: Path) {
    exists i :: 0 <= i < |sources| && Carries(sources[i], r, host)
  }

  /** Source `i` is the request's own and at least as wide. */
  ghost predicate IsOwn(sources: seq<StagedSource>, i: nat, r: Request, host: Path) {
    i < |sources| && sources[i].host == host && Carries(sources[i], r, host)
  }

  lemma WiderStill(a: seq<string>, g: bool, b: seq<string>, h: bool, c: seq<string>, i: bool)
    requires Wider(a, g, b, h) && Wider(b, h, c, i)
    ensures Wider(a, g, c, i)
  {
    forall view: View, file | Copied(view, a, g, file) ensures Copied(view, c, i, file) {
      assert Copied(view, b, h, file);
    }
  }

  lemma OwnStays(cfg: Config, c: Collected, r: Request, host: Path, i: nat, more: Request)
    requires IsRegistered(cfg, c) && IsOwn(c.sources, i, r, host)
    ensures IsOwn(Collect(cfg, c, more).sources, i, r, host)
  {
    CollectRegisters(cfg, c, more);
    var sources := Collect(cfg, c, more).sources;
    if !Refused(cfg, c, more.text) {
      WiderStill(r.exclude, r.gitManifest, c.sources[i].exclude, c.sources[i].gitManifest,
                 sources[i].exclude, sources[i].gitManifest);
    }
  }

  lemma OwnAtFirst(cfg: Config, c: Collected, r: Request) returns (i: nat)
    requires IsRegistered(cfg, c) && !Refused(cfg, c, r.text)
    ensures IsOwn(Collect(cfg, c, r).sources, i, r, HostOf(cfg.resolve(r.text).value))
  {
    CollectRegisters(cfg, c, r);
    var host := HostOf(cfg.resolve(r.text).value);
    var sources := Collect(cfg, c, r).sources;
    i :| 0 <= i < |sources| && sources[i].host == host
         && Wider(r.exclude, r.gitManifest, sources[i].exclude, sources[i].gitManifest);
  }

  lemma OwnNow(cfg: Config, requests: seq<Request>, k: nat, host: Path) returns (i: nat)
    requires Stages(cfg, requests, k, host)
    ensures IsOwn(CollectAll(cfg, requests[..k + 1]).sources, i, requests[k], host)
  {
    OneRequestMore(cfg, requests, k);
    i := OwnAtFirst(cfg, CollectAll(cfg, requests[..k]), requests[k]);
  }

  lemma OwnNext(cfg: Config, requests: seq<Request>, m: nat, r: Request, host: Path, i: nat)
    requires m < |requests| && IsOwn(CollectAll(cfg, requests[..m]).sources, i, r, host)
    ensures IsOwn(CollectAll(cfg, requests[..m + 1]).sources, i, r, host)
  {
    OneRequestMore(cfg, requests, m);
    OwnStays(cfg, CollectAll(cfg, requests[..m]), r, host, i, requests[m]);
  }

  lemma {:induction false} OwnLater(cfg: Config, requests: seq<Request>, m: nat, r: Request, host: Path, i: nat)
    requires m <= |requests| && IsOwn(CollectAll(cfg, requests[..m]).sources, i, r, host)
    ensures IsOwn(CollectAll(cfg, requests).sources, i, r, host)
    decreases |requests| - m
  {
    if m == |requests| {
      assert requests[..m] == requests;
    } else {
      OwnNext(cfg, requests, m, r, host, i);
      OwnLater(cfg, requests, m + 1, r, host, i);
    }
  }

  /** However many requests share a host path, its one source stays as wide as
      each of them. */
  lemma NothingNarrows(cfg: Config, requests: seq<Request>, k: nat, host: Path) returns (i: nat)
    requires Stages(cfg, requests, k, host)
    ensures IsOwn(CollectAll(cfg, requests).sources, i, requests[k], host)
  {
    i := OwnNow(cfg, requests, k, host);
    OwnLater(cfg, requests, k + 1, requests[k], host, i);
  }

  /** The plan copies whatever any request that was not refused would have copied
      on its own, also after nested sources were dropped. */
  lemma PlanCarriesRequests(cfg: Config, requests: seq<Request>, k: nat, host: Path)
    requires Stages(cfg, requests, k, host)
    ensures Carried(Kept(SortByHost(CollectAll(cfg, requests).sources)), requests[k], host)
  {
    var i := NothingNarrows(cfg, requests, k, host);
    CollapseCarries(CollectAll(cfg, requests).sources, requests[k], host, i);
  }

  lemma CollapseCarries(sources: seq<StagedSource>, r: Request, host: Path, i: nat)
    requires IsOwn(sources, i, r, host)
    ensures Carried(Kept(SortByHost(sources)), r, host)
  {
    var kept := Kept(SortByHost(sources));
    SortSorts(sources);
    DroppedIsCovered(SortByHost(sources), sources[i]);
    if sources[i] in kept {
      var j :| 0 <= j < |kept| && kept[j] == sources[i];
      assert Carries(kept[j], r, host);
    } else {
      var j :| 0 <= j < |kept| && Covers(kept[j], sources[i]);
      assert Carries(kept[j], r, host);
    }
  }
}
