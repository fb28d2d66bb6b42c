/** Rule files re-read through a stamp cache, while writers and other callers
    interleave. */
module RuleCache {
  import opened Net
  import opened Decision
  import opened HostPatterns
  import opened Answers

  datatype Kind = Kitchen | Global

  /** Modification time and length. */
  datatype Stamp = Stamp(modified: int, length: nat)

  /** What `fs::metadata` tells. */
  datatype Metadata = Stamped(stamp: Stamp) | NotFound | Unreadable

  datatype Cached = Cached(stamp: Option<Stamp>, rules: Rules)

  /** One rules file; `parse` is `None` for text that is not a valid file. */
  datatype Source = Source(kind: Kind, parse: string -> Option<Rules>)

  /** A source that was never read says the least it can. */
  function Unread(kind: Kind): Rules {
    if kind.Kitchen? then Rules([BUILTIN], []) else Rules([], [])
  }

  /** The cache after one call that saw `metadata` and, if it reads the file,
      gets `text`; the call returns the cached rules. */
  function Refresh(source: Source, cache: Cached, metadata: Metadata, text: Option<string>): Cached {
    if source.kind.Global? && metadata.NotFound? then Cached(None, Rules([], []))
    else
      var stamp := if metadata.Stamped? then Some(metadata.stamp) else None;
      if stamp.Some? && cache.stamp == stamp then cache
      else if text.Some? && source.parse(text.value).Some? then Cached(stamp, source.parse(text.value).value)
      else cache
  }

  class RuleSource {
    const source: Source
    var stamp: Option<Stamp>
    var rules: Rules

    constructor (source: Source)
      ensures this.source == source && Contents() == Cached(None, Unread(source.kind))
      ensures rules.deny == [] && rules.allow == if source.kind.Kitchen? then [Exact("ntp.ubuntu.com")] else []
    {
      this.source := source;
      stamp, rules := None, Unread(source.kind);
    }

    function Contents(): Cached
      reads this
    {
      Cached(stamp, rules)
    }

    /** `current`, after its metadata read; `text` is what reading the file
        gives, `None` when that fails. */
    method Current(metadata: Metadata, text: Option<string>) returns (r: Rules)
      modifies this
      ensures Contents() == Refresh(source, old(Contents()), metadata, text)
      ensures r == Contents().rules
    {
      if source.kind.Global? && metadata.NotFound? {
        rules := Rules([], []);
        stamp := None;
        return rules;
      }
      var seen := if metadata.Stamped? then Some(metadata.stamp) else None;
      if seen.Some? && stamp == seen { return rules; }
      if text.Some? {
        var parsed := source.parse(text.value);
        if parsed.Some? {
          rules := parsed.value;
          stamp := seen;
        }
      }
      r := rules;
    }
  }

  //--- interleavings -----------------------------------------------------------------------------

  datatype File = Absent | Present(stamp: Stamp, text: string)

  /** A call between its metadata read and its lock; `at` is the version whose
      metadata it saw. */
  datatype Call = Call(metadata: Metadata, at: nat)

  /** `versions` are the file's contents so far, the last one current.
      `seenAt` and `readAt` remember which versions gave the cached stamp and
      the cached rules; `results` what the calls returned, in lock order. */
  datatype World = World(
    versions: seq<File>,
    cache: Cached,
    calls: map<nat, Call>,
    seenAt: nat,
    readAt: nat,
    results: seq<Rules>
  )

  /** The two I/O steps of a call can fail for reasons of their own. The cache
      is locked from the comparison to the update, so that is one step. */
  datatype Event =
    | Write(file: File)
    | Stat(caller: nat, fails: bool)
    | Finish(caller: nat, fails: bool)

  function MetadataOf(file: File, fails: bool): Metadata {
    if fails then Unreadable else if file.Absent? then NotFound else Stamped(file.stamp)
  }

  function TextOf(file: File, fails: bool): Option<string> {
    if fails || file.Absent? then None else Some(file.text)
  }

  function Initial(source: Source, file: File): World {
    World([file], Cached(None, Unread(source.kind)), map[], 0, 0, [])
  }

  function Next(source: Source, w: World, e: Event): Option<World>
    requires w.versions != []
  {
    var now := |w.versions| - 1;
    match e
    case Write(file) => Some(w.(versions := w.versions + [file]))
    case Stat(caller, fails) =>
      Some(w.(calls := w.calls[caller := Call(MetadataOf(w.versions[now], fails), now)]))
    case Finish(caller, fails) =>
      if caller !in w.calls then None
      else
        var call := w.calls[caller];
        var cache := Refresh(source, w.cache, call.metadata, TextOf(w.versions[now], fails));
        var done := w.(cache := cache, calls := w.calls - {caller}, results := w.results + [cache.rules]);
        Some(if cache == w.cache then done else done.(seenAt := call.at, readAt := now))
  }

  function After(source: Source, file: File, run: seq<Event>): (w: Option<World>)
    ensures w.Some? ==> w.value.versions != []
  {
    if run == [] then Some(Initial(source, file))
    else
      var before := After(source, file, run[..|run| - 1]);
      if before.None? then None else Next(source, before.value, run[|run| - 1])
  }

  function LastResult(source: Source, w: World): Rules {
    if w.results == [] then Unread(source.kind) else w.results[|w.results| - 1]
  }

  /** The cached stamp is that of a version, and the cached rules were read
      from that version or a later one; every open call saw its own version. */
  ghost predicate Traced(source: Source, w: World) {
    && w.versions != []
    && w.cache.rules == LastResult(source, w)
    && (w.cache.stamp.Some? ==>
          && w.seenAt <= w.readAt < |w.versions|
          && w.versions[w.seenAt].Present? && w.versions[w.seenAt].stamp == w.cache.stamp.value
          && w.versions[w.readAt].Present? && source.parse(w.versions[w.readAt].text) == Some(w.cache.rules))
    && forall c :: c in w.calls ==>
         && w.calls[c].at < |w.versions|
         && exists fails :: w.calls[c].metadata == MetadataOf(w.versions[w.calls[c].at], fails)
  }

  lemma {:induction false} RunIsTraced(source: Source, file: File, run: seq<Event>)
    requires After(source, file, run).Some?
    ensures Traced(source, After(source, file, run).value)
  {
    if run != [] {
      var n := |run| - 1;
      RunIsTraced(source, file, run[..n]);
      StepIsTraced(source, After(source, file, run[..n]).value, run[n]);
    }
  }

  lemma StepIsTraced(source: Source, w: World, e: Event)
    requires Traced(source, w) && Next(source, w, e).Some?
    ensures Traced(source, Next(source, w, e).value)
  {
    var w' := Next(source, w, e).value;
    match e
    case Write(file) =>
      assert forall i :: 0 <= i < |w.versions| ==> w'.versions[i] == w.versions[i];
    case Stat(caller, fails) =>
      assert w'.calls[caller].metadata == MetadataOf(w.versions[|w.versions| - 1], fails);
    case Finish(caller, fails) =>
  }

  //--- when the cache tells the truth ------------------------------------------------------------

  function Current(w: World): File
    requires w.versions != []
  {
    w.versions[|w.versions| - 1]
  }

  /** If the cached stamp is the file's, the cached rules are what the file says. */
  ghost predicate Agrees(source: Source, w: World)
    requires w.versions != []
  {
    Current(w).Present? && w.cache.stamp == Some(Current(w).stamp) ==>
      source.parse(Current(w).text) == Some(w.cache.rules)
  }

  /** A reader can see the stamp of version `i`, read version `k`, and so hold
      rules under the last version's stamp that the last version does not have. */
  ghost predicate Misleads(source: Source, versions: seq<File>, i: nat, k: nat) {
    && i <= k < |versions|
    && var last := versions[|versions| - 1];
       && versions[i].Present? && versions[k].Present? && last.Present?
       && versions[i].stamp == last.stamp
       && source.parse(versions[k].text).Some?
       && source.parse(versions[k].text) != source.parse(last.text)
  }

  ghost predicate Harmless(source: Source, versions: seq<File>) {
    forall i: nat, k: nat :: !Misleads(source, versions, i, k)
  }

  /** Some interleaving has exactly these versions. */
  ghost predicate HasVersions(source: Source, versions: seq<File>, run: seq<Event>)
    requires versions != []
  {
    After(source, versions[0], run).Some? && After(source, versions[0], run).value.versions == versions
  }

  /** Stamps that never repeat are harmless, up to every version. */
  lemma FreshStampsAreHarmless(source: Source, versions: seq<File>, n: nat)
    requires n <= |versions|
    requires forall i, j :: 0 <= i < j < |versions| && versions[i].Present? && versions[j].Present? ==>
               versions[i].stamp != versions[j].stamp
    ensures Harmless(source, versions[..n])
  {
  }

  lemma TracedAgrees(source: Source, w: World)
    requires Traced(source, w) && Harmless(source, w.versions)
    ensures Agrees(source, w)
  {
    if w.cache.stamp.Some? {
      assert !Misleads(source, w.versions, w.seenAt, w.readAt);
    }
  }

  /** For every history of a file: the cache tells the truth in all interleavings
      that have this history exactly when the history is harmless. */
  lemma CacheAgreesIff(source: Source, versions: seq<File>)
    requires versions != []
    ensures (forall run :: HasVersions(source, versions, run) ==> Agrees(source, After(source, versions[0], run).value))
            <==> Harmless(source, versions)
  {
    if Harmless(source, versions) {
      forall run | HasVersions(source, versions, run) ensures Agrees(source, After(source, versions[0], run).value) {
        RunIsTraced(source, versions[0], run);
        TracedAgrees(source, After(source, versions[0], run).value);
      }
    }
    if i: nat, k: nat :| Misleads(source, versions, i, k) {
      var run := MisledRun(source, versions, i, k);
      assert HasVersions(source, versions, run) && !Agrees(source, After(source, versions[0], run).value);
    }
  }

  /** In particular when stamps never repeat. */
  lemma FreshStampsAgree(source: Source, versions: seq<File>, run: seq<Event>)
    requires versions != [] && HasVersions(source, versions, run)
    requires forall i, j :: 0 <= i < j < |versions| && versions[i].Present? && versions[j].Present? ==>
               versions[i].stamp != versions[j].stamp
    ensures Agrees(source, After(source, versions[0], run).value)
  {
    FreshStampsAreHarmless(source, versions, |versions|);
    assert versions[..|versions|] == versions;
    CacheAgreesIff(source, versions);
  }

  /** The call saw the file's current metadata. */
  predicate IsQuiet(w: World, caller: nat)
    requires w.versions != []
  {
    && caller in w.calls && w.calls[caller].at == |w.versions| - 1
    && w.calls[caller].metadata == MetadataOf(Current(w), false)
  }

  /** Finishing now, the call returns what the file says; no rules for a missing
      global file; and otherwise what the call before it returned. */
  predicate Rereads(source: Source, w: World, caller: nat)
    requires w.versions != [] && caller in w.calls
  {
    LastResult(source, Next(source, w, Finish(caller, false)).value) ==
      if Current(w).Present? && source.parse(Current(w).text).Some? then source.parse(Current(w).text).value
      else if Current(w).Absent? && source.kind.Global? then Rules([], [])
      else LastResult(source, w)
  }

  lemma QuietCallRereads(source: Source, w: World, caller: nat)
    requires Traced(source, w) && IsQuiet(w, caller)
    requires Current(w).Present? && source.parse(Current(w).text).Some? ==> Harmless(source, w.versions)
    ensures Rereads(source, w, caller)
  {
    if Current(w).Present? && source.parse(Current(w).text).Some? {
      TracedAgrees(source, w);
    }
  }

  /** For every history of a file: calls with no write since their metadata read
      re-read it in all interleavings exactly when the history is harmless or
      its last version is not valid anyway. */
  lemma QuietCallsRereadIff(source: Source, versions: seq<File>)
    requires versions != []
    ensures var last := versions[|versions| - 1];
            (forall run, caller :: HasVersions(source, versions, run) && IsQuiet(After(source, versions[0], run).value, caller) ==>
               Rereads(source, After(source, versions[0], run).value, caller))
            <==> (last.Present? && source.parse(last.text).Some? ==> Harmless(source, versions))
  {
    var last := versions[|versions| - 1];
    if last.Present? && source.parse(last.text).Some? ==> Harmless(source, versions) {
      forall run, caller | HasVersions(source, versions, run) && IsQuiet(After(source, versions[0], run).value, caller)
        ensures Rereads(source, After(source, versions[0], run).value, caller)
      {
        RunIsTraced(source, versions[0], run);
        QuietCallRereads(source, After(source, versions[0], run).value, caller);
      }
    } else {
      var i: nat, k: nat :| Misleads(source, versions, i, k);
      var run := MisledRun(source, versions, i, k);
      var w := After(source, versions[0], run).value;
      Reaches(source, versions[0], run, Stat(0, false));
      var asking := run + [Stat(0, false)];
      assert HasVersions(source, versions, asking) && IsQuiet(After(source, versions[0], asking).value, 0);
      assert !Rereads(source, After(source, versions[0], asking).value, 0);
    }
  }

  /** Calls are never behind: when every version since its metadata read is
      valid, and the history up to that read is harmless, a call that can read
      returns the rules of one of those versions. */
  lemma NeverBehind(source: Source, file: File, run: seq<Event>, caller: nat) returns (i: nat)
    requires After(source, file, run).Some? && caller in After(source, file, run).value.calls
    requires var w := After(source, file, run).value;
             && w.calls[caller].at < |w.versions| && Harmless(source, w.versions[..w.calls[caller].at + 1])
             && forall v :: w.calls[caller].at <= v < |w.versions| ==>
                  w.versions[v].Present? && source.parse(w.versions[v].text).Some?
    ensures var w := After(source, file, run).value;
            && w.calls[caller].at <= i < |w.versions|
            && w.versions[i].Present?
            && source.parse(w.versions[i].text) == Some(LastResult(source, Next(source, w, Finish(caller, false)).value))
  {
    RunIsTraced(source, file, run);
    i := ReadVersion(source, After(source, file, run).value, caller);
  }

  lemma ReadVersion(source: Source, w: World, caller: nat) returns (i: nat)
    requires Traced(source, w) && caller in w.calls && Harmless(source, w.versions[..w.calls[caller].at + 1])
    requires forall v :: w.calls[caller].at <= v < |w.versions| ==>
               w.versions[v].Present? && source.parse(w.versions[v].text).Some?
    ensures && w.calls[caller].at <= i < |w.versions|
            && w.versions[i].Present?
            && source.parse(w.versions[i].text) == Some(LastResult(source, Next(source, w, Finish(caller, false)).value))
  {
    var call := w.calls[caller];
    var now := |w.versions| - 1;
    assert w.versions[call.at].Present? && w.versions[now].Present?;
    if call.metadata.Stamped? && w.cache.stamp == Some(call.metadata.stamp) {
      if w.readAt < call.at {
        assert !Misleads(source, w.versions[..call.at + 1], w.seenAt, w.readAt);
        i := call.at;
      } else {
        i := w.readAt;
      }
    } else {
      i := now;
    }
  }

  //--- a reader that is misled -------------------------------------------------------------------

  /** The writer goes on to version `n`, and nothing else happens. */
  lemma {:induction false} WriteOn(source: Source, versions: seq<File>, run: seq<Event>, n: nat)
    returns (longer: seq<Event>)
    requires versions != [] && After(source, versions[0], run).Some?
    requires var w := After(source, versions[0], run).value; |w.versions| <= n + 1 <= |versions|
    requires After(source, versions[0], run).value.versions == versions[..|After(source, versions[0], run).value.versions|]
    ensures After(source, versions[0], longer)
            == Some(After(source, versions[0], run).value.(versions := versions[..n + 1]))
    decreases n + 1 - |After(source, versions[0], run).value.versions|
  {
    var w := After(source, versions[0], run).value;
    var m := |w.versions|;
    if m == n + 1 {
      longer := run;
    } else {
      Reaches(source, versions[0], run, Write(versions[m]));
      assert versions[..m] + [versions[m]] == versions[..m + 1];
      longer := WriteOn(source, versions, run + [Write(versions[m])], n);
    }
  }

  /** A reader looks at version `i`'s metadata and reads version `k`. */
  lemma ReadAcross(source: Source, versions: seq<File>, i: nat, k: nat) returns (run: seq<Event>)
    requires i <= k < |versions| && versions[i].Present? && versions[k].Present?
    requires source.parse(versions[k].text).Some?
    ensures After(source, versions[0], run).Some?
    ensures var w := After(source, versions[0], run).value;
            && w.versions == versions[..k + 1]
            && w.cache == Cached(Some(versions[i].stamp), source.parse(versions[k].text).value)
  {
    assert versions[..1] == [versions[0]];
    run := WriteOn(source, versions, [], i);
    Reaches(source, versions[0], run, Stat(0, false));
    run := WriteOn(source, versions, run + [Stat(0, false)], k);
    Reaches(source, versions[0], run, Finish(0, false));
    run := run + [Finish(0, false)];
  }

  /** The rules of version `k` end up under the stamp of the last version. */
  lemma MisledRun(source: Source, versions: seq<File>, i: nat, k: nat) returns (run: seq<Event>)
    requires versions != [] && Misleads(source, versions, i, k)
    ensures HasVersions(source, versions, run)
    ensures After(source, versions[0], run).value.cache
            == Cached(Some(versions[|versions| - 1].stamp), source.parse(versions[k].text).value)
  {
    run := ReadAcross(source, versions, i, k);
    run := WriteOn(source, versions, run, |versions| - 1);
    assert versions[..|versions|] == versions;
  }

  /** A file that is swapped out and back under a reader is such a history, even
      though the repeated stamp comes with its old text. */
  lemma SwapMisleads(source: Source, one: File, two: File)
    requires one.Present? && two.Present?
    requires source.parse(two.text).Some? && source.parse(one.text) != source.parse(two.text)
    ensures exists run :: HasVersions(source, [one, two, one], run)
                          && !Agrees(source, After(source, one, run).value)
  {
    assert Misleads(source, [one, two, one], 0, 1);
    CacheAgreesIff(source, [one, two, one]);
  }

  lemma Reaches(source: Source, file: File, run: seq<Event>, e: Event)
    requires After(source, file, run).Some?
    ensures After(source, file, run + [e]) == Next(source, After(source, file, run).value, e)
  {
    assert (run + [e])[..|run|] == run;
  }
}
