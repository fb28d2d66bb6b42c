/** The per-sandbox prompt limit: a deque pruned from the front stands for the
    whole history of accepted prompts. */
module RateLimit {

  /** Time since `earlier`, zero when the clock reads earlier than that. */
  function Elapsed(now: int, earlier: int): nat {
    if now >= earlier then now - earlier else 0
  }

  /** Drop the front of the deque for as long as it has left the window. */
  function Prune(times: seq<int>, now: int, window: nat): seq<int> {
    if times != [] && Elapsed(now, times[0]) >= window then Prune(times[1..], now, window)
    else times
  }

  /** The deque after one counted prompt, and whether the prompt is accepted. */
  function Count(times: seq<int>, now: int, window: nat, maxPrompts: nat): (bool, seq<int>) {
    var kept := Prune(times, now, window);
    if |kept| >= maxPrompts then (false, kept) else (true, kept + [now])
  }

  /** How many of `history`'s prompts are still inside the window. */
  ghost function InWindow(history: seq<int>, now: int, window: nat): nat {
    if history == [] then 0
    else InWindow(history[..|history| - 1], now, window)
         + if now - history[|history| - 1] < window then 1 else 0
  }

  ghost predicate Nondecreasing(times: seq<int>) {
    forall i, j :: 0 <= i <= j < |times| ==> times[i] <= times[j]
  }

  /** The deque is the part of the history that was not yet pruned: everything
      before it had left the window at `clock`, the time of the latest call. */
  ghost predicate Tracks(times: seq<int>, history: seq<int>, clock: int, window: nat) {
    && |times| <= |history|
    && times == history[|history| - |times|..]
    && Nondecreasing(history)
    && (forall i :: 0 <= i < |history| ==> history[i] <= clock)
    && (forall i :: 0 <= i < |history| - |times| ==> Elapsed(clock, history[i]) >= window)
  }

  /** No `maxPrompts + 1` successive accepted prompts fit into one window. */
  ghost predicate Spaced(history: seq<int>, window: nat, maxPrompts: nat) {
    forall i :: 0 <= i < |history| - maxPrompts ==> history[i + maxPrompts] - history[i] >= window
  }

  lemma {:induction false} PruneSplits(times: seq<int>, now: int, window: nat)
    requires Nondecreasing(times)
    ensures var kept := Prune(times, now, window);
            && |kept| <= |times|
            && kept == times[|times| - |kept|..]
            && (forall i :: 0 <= i < |times| - |kept| ==> Elapsed(now, times[i]) >= window)
            && (forall i :: 0 <= i < |kept| ==> Elapsed(now, kept[i]) < window)
  {
    if times != [] && Elapsed(now, times[0]) >= window {
      PruneSplits(times[1..], now, window);
    }
  }

  lemma {:induction false} InWindowSplits(outside: seq<int>, inside: seq<int>, now: int, window: nat)
    requires forall i :: 0 <= i < |outside| ==> now - outside[i] >= window
    requires forall i :: 0 <= i < |inside| ==> now - inside[i] < window
    ensures InWindow(outside + inside, now, window) == |inside|
  {
    var all := outside + inside;
    if inside != [] {
      assert all[..|all| - 1] == outside + inside[..|inside| - 1];
      InWindowSplits(outside, inside[..|inside| - 1], now, window);
    } else if outside != [] {
      assert all[..|all| - 1] == outside[..|outside| - 1] + [];
      InWindowSplits(outside[..|outside| - 1], [], now, window);
    }
  }

  ghost predicate AllInside(times: seq<int>, now: int, window: nat) {
    forall i :: 0 <= i < |times| ==> Elapsed(now, times[i]) < window
  }

  /** A deque that is all inside the window counts the whole history. */
  lemma DequeCounts(times: seq<int>, history: seq<int>, now: int, window: nat)
    requires Tracks(times, history, now, window) && AllInside(times, now, window)
    ensures InWindow(history, now, window) == |times|
  {
    var outside := history[..|history| - |times|];
    forall i | 0 <= i < |outside| ensures now - outside[i] >= window {
      assert Elapsed(now, history[i]) >= window;
    }
    forall i | 0 <= i < |times| ensures now - times[i] < window {
      assert Elapsed(now, times[i]) < window;
    }
    InWindowSplits(outside, times, now, window);
    assert history == outside + times;
  }

  lemma SuffixOfSuffix(history: seq<int>, times: seq<int>, kept: seq<int>)
    requires |kept| <= |times| <= |history|
    requires times == history[|history| - |times|..] && kept == times[|times| - |kept|..]
    ensures kept == history[|history| - |kept|..]
    ensures forall i :: |history| - |times| <= i < |history| - |kept| ==> history[i] == times[i - (|history| - |times|)]
  {
  }

  lemma PruneTracks(times: seq<int>, history: seq<int>, clock: int, now: int, window: nat)
    requires Tracks(times, history, clock, window) && clock <= now
    ensures Tracks(Prune(times, now, window), history, now, window)
    ensures AllInside(Prune(times, now, window), now, window)
  {
    assert Nondecreasing(times);
    PruneSplits(times, now, window);
    var kept := Prune(times, now, window);
    SuffixOfSuffix(history, times, kept);
    forall i | 0 <= i < |history| - |kept| ensures Elapsed(now, history[i]) >= window {
      if i < |history| - |times| {
        assert Elapsed(clock, history[i]) >= window;
      } else {
        assert Elapsed(now, times[i - (|history| - |times|)]) >= window;
      }
    }
  }

  lemma CountTracks(times: seq<int>, history: seq<int>, clock: int, now: int, window: nat)
    requires Tracks(times, history, clock, window) && clock <= now
    ensures Tracks(Prune(times, now, window), history, now, window)
    ensures InWindow(history, now, window) == |Prune(times, now, window)|
  {
    PruneTracks(times, history, clock, now, window);
    DequeCounts(Prune(times, now, window), history, now, window);
  }

  lemma CountSpaces(kept: seq<int>, history: seq<int>, now: int, window: nat, maxPrompts: nat)
    requires Tracks(kept, history, now, window) && Spaced(history, window, maxPrompts)
    requires |kept| < maxPrompts
    ensures Spaced(history + [now], window, maxPrompts)
  {
    var history' := history + [now];
    forall i | 0 <= i < |history'| - maxPrompts
      ensures history'[i + maxPrompts] - history'[i] >= window
    {
      if i + maxPrompts == |history| {
        assert Elapsed(now, history[i]) >= window;
      }
    }
  }

  /** An accepted prompt joins the deque and the history alike. */
  lemma AcceptTracks(kept: seq<int>, history: seq<int>, now: int, window: nat)
    requires Tracks(kept, history, now, window)
    ensures Tracks(kept + [now], history + [now], now, window)
  {
    var n := |history| - |kept|;
    assert (history + [now])[n..] == history[n..] + [now];
  }

  /** One call refines the full history: the pruned deque accepts exactly when
      fewer than `maxPrompts` accepted prompts lie inside the window, and keeps
      tracking the history that gains the accepted prompt. */
  lemma CountRefines(times: seq<int>, history: seq<int>, clock: int, now: int, window: nat, maxPrompts: nat)
    requires Tracks(times, history, clock, window) && clock <= now
    requires Spaced(history, window, maxPrompts)
    ensures var (accepted, times') := Count(times, now, window, maxPrompts);
            var history' := if accepted then history + [now] else history;
            && (accepted <==> InWindow(history, now, window) < maxPrompts)
            && Tracks(times', history', now, window)
            && Spaced(history', window, maxPrompts)
  {
    CountTracks(times, history, clock, now, window);
    if |Prune(times, now, window)| < maxPrompts {
      AcceptTracks(Prune(times, now, window), history, now, window);
      CountSpaces(Prune(times, now, window), history, now, window, maxPrompts);
    }
  }

  /** A later clock reading keeps a deque tracking its history. */
  lemma TracksLater(times: seq<int>, history: seq<int>, clock: int, now: int, window: nat)
    requires Tracks(times, history, clock, window) && clock <= now
    ensures Tracks(times, history, now, window)
  {
  }

  /** Clock readings that do not decrease, the last of them at most `clock`. */
  ghost predicate Timeline(calls: seq<int>, clock: int) {
    calls == [] ||
    (calls[|calls| - 1] <= clock && Timeline(calls[..|calls| - 1], calls[|calls| - 1]))
  }

  /** A sandbox's deque after a list of calls since its last reset, and the
      full history of the calls that were accepted. */
  ghost function After(calls: seq<int>, window: nat, maxPrompts: nat): (seq<int>, seq<int>) {
    if calls == [] then ([], [])
    else
      var n := |calls| - 1;
      var (times, history) := After(calls[..n], window, maxPrompts);
      var (accepted, times') := Count(times, calls[n], window, maxPrompts);
      (times', if accepted then history + [calls[n]] else history)
  }

  /** What one more call does to the deque and to the history. */
  lemma AfterMore(calls: seq<int>, next: int, window: nat, maxPrompts: nat)
    ensures var (times, history) := After(calls, window, maxPrompts);
            var (accepted, times') := Count(times, next, window, maxPrompts);
            After(calls + [next], window, maxPrompts) == (times', if accepted then history + [next] else history)
  {
    assert (calls + [next])[..|calls|] == calls;
  }

  lemma TimelineMore(calls: seq<int>, clock: int, next: int)
    requires Timeline(calls, clock) && clock <= next
    ensures Timeline(calls + [next], next) && Timeline(calls, next)
  {
    assert (calls + [next])[..|calls|] == calls;
  }

  /** The prompts to accept of a list of calls: those that find fewer than
      `maxPrompts` accepted ones in the window. */
  ghost function Accepted(calls: seq<int>, window: nat, maxPrompts: nat): seq<int> {
    if calls == [] then []
    else
      var n := |calls| - 1;
      var before := Accepted(calls[..n], window, maxPrompts);
      if InWindow(before, calls[n], window) < maxPrompts then before + [calls[n]] else before
  }

  lemma {:induction false} TracksAlways(calls: seq<int>, clock: int, window: nat, maxPrompts: nat)
    requires Timeline(calls, clock)
    ensures var (times, history) := After(calls, window, maxPrompts);
            Tracks(times, history, clock, window) && Spaced(history, window, maxPrompts)
  {
    if calls != [] {
      var n := |calls| - 1;
      TracksAlways(calls[..n], calls[n], window, maxPrompts);
      var (times, history) := After(calls[..n], window, maxPrompts);
      CountRefines(times, history, calls[n], calls[n], window, maxPrompts);
      var (times', history') := After(calls, window, maxPrompts);
      TracksLater(times', history', calls[n], clock, window);
    }
  }

  lemma AcceptsOne(calls: seq<int>, next: int, window: nat, maxPrompts: nat)
    requires Timeline(calls, next)
    ensures var (times, history) := After(calls, window, maxPrompts);
            && Spaced(history, window, maxPrompts)
            && (Count(times, next, window, maxPrompts).0 <==> InWindow(history, next, window) < maxPrompts)
  {
    TracksAlways(calls, next, window, maxPrompts);
    var (times, history) := After(calls, window, maxPrompts);
    CountRefines(times, history, next, next, window, maxPrompts);
  }

  lemma {:induction false} AcceptsAll(calls: seq<int>, clock: int, window: nat, maxPrompts: nat)
    requires Timeline(calls, clock)
    ensures After(calls, window, maxPrompts).1 == Accepted(calls, window, maxPrompts)
  {
    if calls != [] {
      var n := |calls| - 1;
      AcceptsAll(calls[..n], calls[n], window, maxPrompts);
      AcceptsOne(calls[..n], calls[n], window, maxPrompts);
    }
  }

  /** Over every run of calls with a nondecreasing clock: the accepted prompts are
      those to accept, the next call is accepted exactly when they leave room in
      the window, and any
      `maxPrompts + 1` successive accepted prompts span at least the window. */
  lemma LimiterRefinesHistory(calls: seq<int>, next: int, window: nat, maxPrompts: nat)
    requires Timeline(calls, next)
    ensures var (times, history) := After(calls, window, maxPrompts);
            && Spaced(history, window, maxPrompts) && history == Accepted(calls, window, maxPrompts)
            && (Count(times, next, window, maxPrompts).0 <==> InWindow(history, next, window) < maxPrompts)
  {
    AcceptsOne(calls, next, window, maxPrompts);
    AcceptsAll(calls, next, window, maxPrompts);
  }
}
