/** What the rate limit does over whole runs: who is told when it trips, and whom
    it refuses. */
module ApprovalLimits {
  import opened Net
  import opened ApprovalQueue
  import opened ApprovalProtocol
  import opened ApprovalRuns
  import opened ApprovalTheorems

  /** Whether a step puts the limit of `entry` in force, and how often a run does. */
  predicate Flips(s: State, s': State, entry: Entry) {
    entry !in s.limited && entry in s'.limited
  }

  function FlipsIn(cfg: Settings, limited: set<Entry>, run: seq<Event>, entry: Entry): nat
    requires After(cfg, limited, run).Some?
  {
    if run == [] then 0
    else
      var before := run[..|run| - 1];
      FlipsIn(cfg, limited, before, entry)
      + if Flips(After(cfg, limited, before).value, After(cfg, limited, run).value, entry) then 1 else 0
  }

  /** A step notifies exactly for the limits it puts in force. */
  ghost predicate Announces(s: State, s': State) {
    forall entry :: CountOf(s'.notices, entry) == CountOf(s.notices, entry) + if Flips(s, s', entry) then 1 else 0
  }

  /** Only `resume` takes limits back, one by one. */
  ghost predicate Lifts(s: State, s': State) {
    forall entry :: CountOf(s'.lifted, entry) == CountOf(s.lifted, entry) + if Flips(s', s, entry) then 1 else 0
  }

  ghost predicate SameLimits(s: State, s': State) {
    && s'.limited == s.limited && s'.notices == s.notices && s'.lifted == s.lifted
    && s'.tasks.Keys == s.tasks.Keys
    && (forall t :: t in s.tasks ==> s'.tasks[t].entry == s.tasks[t].entry)
    && (forall t :: t in s.tasks && s'.tasks[t].pc != s.tasks[t].pc ==>
          !s'.tasks[t].pc.Returned? || s'.tasks[t].pc.asked.None?)
  }

  lemma StartKeepsLimits(cfg: Settings, s: State, e: Event)
    requires e.CheckLimited? || e.Consult? || e.Enter?
    requires FlowStep(cfg, s, e).Some?
    ensures SameLimits(s, FlowStep(cfg, s, e).value)
  {
  }

  lemma OpenKeepsLimits(cfg: Settings, s: State, e: Event)
    requires e.CountPrompt? || e.Open? || e.List? || e.TakeScreen?
    requires FlowStep(cfg, s, e).Some?
    ensures SameLimits(s, FlowStep(cfg, s, e).value)
  {
  }

  lemma CloseKeepsLimits(cfg: Settings, s: State, e: Event)
    requires e.ShowDialog? || e.Unlist? || e.Release? || e.Publish?
    requires FlowStep(cfg, s, e).Some?
    ensures SameLimits(s, FlowStep(cfg, s, e).value)
  {
  }

  lemma FollowerKeepsLimits(cfg: Settings, s: State, e: Event)
    requires e.Hear? || e.HearClosed? || (e.ObserveCancel? && PcOf(s, e.task).Following?)
    requires FlowStep(cfg, s, e).Some?
    ensures SameLimits(s, FlowStep(cfg, s, e).value)
  {
  }

  lemma DropKeepsLimits(s: State, t: nat)
    requires DropStep(s, t).Some?
    ensures SameLimits(s, DropStep(s, t).value)
  {
  }

  lemma WaitKeepsLimits(s: State, e: Event)
    requires IsFlowEvent(e) && WaitStep(s, e).Some?
    ensures SameLimits(s, WaitStep(s, e).value)
  {
  }

  lemma FlowKeepsLimits(cfg: Settings, s: State, e: Event)
    requires IsFlowEvent(e) && FlowStep(cfg, s, e).Some? && !e.Settle?
    ensures SameLimits(s, FlowStep(cfg, s, e).value)
  {
    if e.CheckLimited? || e.Consult? || e.Enter? {
      StartKeepsLimits(cfg, s, e);
    } else if e.CountPrompt? || e.Open? || e.List? || e.TakeScreen? {
      OpenKeepsLimits(cfg, s, e);
    } else if e.ShowDialog? || e.Unlist? || e.Release? || e.Publish? {
      CloseKeepsLimits(cfg, s, e);
    } else if e.Drop? {
      DropKeepsLimits(s, e.task);
    } else if e.Hear? || e.HearClosed? || (e.ObserveCancel? && PcOf(s, e.task).Following?) {
      FollowerKeepsLimits(cfg, s, e);
    } else {
      WaitKeepsLimits(s, e);
    }
  }

  lemma SettleTrips(s: State, t: nat)
    requires SettleStep(s, t).Some?
    ensures Announces(s, SettleStep(s, t).value) && Lifts(s, SettleStep(s, t).value)
    ensures s.tasks[t].pc.outcome.RateLimited? ==> s.tasks[t].entry in SettleStep(s, t).value.limited
  {
  }

  lemma ResumeLifts(s: State, entry: Entry)
    ensures Announces(s, ResumeEntry(s, entry)) && Lifts(s, ResumeEntry(s, entry))
  {
  }

  lemma SameLimitsAnnounce(s: State, s': State)
    requires SameLimits(s, s')
    ensures Announces(s, s') && Lifts(s, s')
  {
  }

  lemma OutsideKeepsLimits(cfg: Settings, s: State, e: Event)
    requires !IsFlowEvent(e) && !e.Resume? && Next(cfg, s, e).Some?
    ensures var s' := Next(cfg, s, e).value; s'.limited == s.limited && s'.notices == s.notices && s'.lifted == s.lifted
  {
  }

  lemma StepAnnounces(cfg: Settings, s: State, e: Event)
    requires Next(cfg, s, e).Some?
    ensures Announces(s, Next(cfg, s, e).value) && Lifts(s, Next(cfg, s, e).value)
  {
    if e.Settle? {
      SettleTrips(s, e.task);
    } else if IsFlowEvent(e) {
      FlowKeepsLimits(cfg, s, e);
      SameLimitsAnnounce(s, Next(cfg, s, e).value);
    } else if e.Resume? {
      ResumeLifts(s, e.entry);
    } else {
      OutsideKeepsLimits(cfg, s, e);
    }
  }

  /** A registration is notified exactly once for every step of the run that puts
      its limit in force; `resume` takes back as many as were put in force or
      restored and are not in force now. */
  lemma {:induction false} EachTripIsAnnouncedOnce(cfg: Settings, limited: set<Entry>, run: seq<Event>, entry: Entry)
    requires After(cfg, limited, run).Some?
    ensures var s := After(cfg, limited, run).value;
            && CountOf(s.notices, entry) == FlipsIn(cfg, limited, run, entry)
            && FlipsIn(cfg, limited, run, entry) + (if entry in limited then 1 else 0)
               == CountOf(s.lifted, entry) + (if entry in s.limited then 1 else 0)
  {
    if run != [] {
      var n := |run| - 1;
      EachTripIsAnnouncedOnce(cfg, limited, run[..n], entry);
      StepAnnounces(cfg, After(cfg, limited, run[..n]).value, run[n]);
    }
  }

  //--- when a registration is limited ------------------------------------------------------------

  /** The step settles a flow of the registration that the rate limit refused. */
  ghost predicate TripsIn(s: State, e: Event, entry: Entry) {
    && e.Settle? && e.task in s.tasks && s.tasks[e.task].entry == entry
    && s.tasks[e.task].pc.Applying? && s.tasks[e.task].pc.outcome.RateLimited?
  }

  ghost predicate TripsNext(cfg: Settings, limited: set<Entry>, run: seq<Event>, e: Event, entry: Entry) {
    After(cfg, limited, run).Some? && TripsIn(After(cfg, limited, run).value, e, entry)
  }

  /** Before step `i` the registration was limited by a restart, or by the step
      before, and no later step resumes it. */
  ghost predicate LimitedSince(cfg: Settings, limited: set<Entry>, run: seq<Event>, i: nat, entry: Entry) {
    && i <= |run|
    && (if i == 0 then entry in limited else TripsNext(cfg, limited, run[..i - 1], run[i - 1], entry))
    && forall k :: i <= k < |run| ==> run[k] != Resume(entry)
  }

  ghost predicate EverLimited(cfg: Settings, limited: set<Entry>, run: seq<Event>, entry: Entry) {
    exists i: nat :: LimitedSince(cfg, limited, run, i, entry)
  }

  lemma StepLimits(cfg: Settings, s: State, e: Event, entry: Entry)
    requires Next(cfg, s, e).Some?
    ensures entry in Next(cfg, s, e).value.limited
            <==> (entry in s.limited && e != Resume(entry)) || TripsIn(s, e, entry)
  {
    if IsFlowEvent(e) && !e.Settle? {
      FlowKeepsLimits(cfg, s, e);
    } else if !IsFlowEvent(e) && !e.Resume? {
      OutsideKeepsLimits(cfg, s, e);
    }
  }

  lemma LimitedEarlier(cfg: Settings, limited: set<Entry>, run: seq<Event>, i: nat, entry: Entry)
    requires i < |run|
    ensures LimitedSince(cfg, limited, run, i, entry)
            <==> LimitedSince(cfg, limited, run[..|run| - 1], i, entry) && run[|run| - 1] != Resume(entry)
  {
    var before := run[..|run| - 1];
    if i > 0 {
      assert before[..i - 1] == run[..i - 1] && before[i - 1] == run[i - 1];
    }
  }

  lemma EverLimitedShifts(cfg: Settings, limited: set<Entry>, run: seq<Event>, entry: Entry)
    requires run != []
    ensures var n := |run| - 1;
            EverLimited(cfg, limited, run, entry)
            <==> || (EverLimited(cfg, limited, run[..n], entry) && run[n] != Resume(entry))
                 || TripsNext(cfg, limited, run[..n], run[n], entry)
  {
    var n := |run| - 1;
    if i: nat :| LimitedSince(cfg, limited, run, i, entry) {
      if i <= n { LimitedEarlier(cfg, limited, run, i, entry); }
    }
    if i: nat :| LimitedSince(cfg, limited, run[..n], i, entry) {
      LimitedEarlier(cfg, limited, run, i, entry);
    }
    if TripsNext(cfg, limited, run[..n], run[n], entry) {
      assert LimitedSince(cfg, limited, run, n + 1, entry);
    }
  }

  /** Over every run, a registration is limited exactly when it was restored so, or
      a flow of it was refused for its rate, and nobody resumed it since. */
  lemma {:induction false} LimitedIff(cfg: Settings, limited: set<Entry>, run: seq<Event>, entry: Entry)
    requires After(cfg, limited, run).Some?
    ensures entry in After(cfg, limited, run).value.limited <==> EverLimited(cfg, limited, run, entry)
  {
    if run == [] {
      assert entry in limited ==> LimitedSince(cfg, limited, run, 0, entry);
    } else {
      var n := |run| - 1;
      LimitedIff(cfg, limited, run[..n], entry);
      StepLimits(cfg, After(cfg, limited, run[..n]).value, run[n], entry);
      EverLimitedShifts(cfg, limited, run, entry);
    }
  }

  /** At step `i` flow `t` settles a refusal by the rate limit, after which its
      registration is limited. */
  ghost predicate RefusedAt(cfg: Settings, limited: set<Entry>, run: seq<Event>, i: nat, t: nat) {
    && i < |run| && run[i] == Settle(t) && After(cfg, limited, run[..i + 1]).Some?
    && var s := After(cfg, limited, run[..i + 1]).value;
       t in s.tasks && s.tasks[t].pc == Returned(false, Some(RateLimited)) && s.tasks[t].entry in s.limited
  }

  lemma RefusesHere(cfg: Settings, s: State, e: Event, t: nat)
    requires Next(cfg, s, e).Some? && PcOf(Next(cfg, s, e).value, t).Returned?
    requires PcOf(Next(cfg, s, e).value, t).asked == Some(RateLimited)
    ensures PcOf(s, t) == PcOf(Next(cfg, s, e).value, t)
            || (e == Settle(t) && t in Next(cfg, s, e).value.tasks
                && Next(cfg, s, e).value.tasks[t].entry in Next(cfg, s, e).value.limited
                && PcOf(Next(cfg, s, e).value, t) == Returned(false, Some(RateLimited)))
  {
    if e.Settle? {
      SettleRefuses(s, e.task, t);
    } else if IsFlowEvent(e) {
      FlowKeepsLimits(cfg, s, e);
    } else {
      OutsideStays(cfg, s, e);
      StepSameFlows(cfg, s, e);
      BegunIsNotReturned(cfg, s, e, t);
    }
  }

  lemma SettleRefuses(s: State, u: nat, t: nat)
    requires SettleStep(s, u).Some? && PcOf(SettleStep(s, u).value, t).Returned?
    requires PcOf(SettleStep(s, u).value, t).asked == Some(RateLimited)
    ensures PcOf(s, t) == PcOf(SettleStep(s, u).value, t)
            || (u == t && t in SettleStep(s, u).value.tasks
                && SettleStep(s, u).value.tasks[t].entry in SettleStep(s, u).value.limited
                && PcOf(SettleStep(s, u).value, t) == Returned(false, Some(RateLimited)))
  {
    SettleTrips(s, u);
  }

  lemma BegunIsNotReturned(cfg: Settings, s: State, e: Event, t: nat)
    requires !IsFlowEvent(e) && Next(cfg, s, e).Some? && PcOf(Next(cfg, s, e).value, t).Returned?
    ensures t in s.tasks
  {
  }

  /** Every flow the rate limit refused put its registration's limit in force, or
      found it so, when it was refused. */
  lemma {:induction false} RefusalsTrip(cfg: Settings, limited: set<Entry>, run: seq<Event>, t: nat) returns (i: nat)
    requires After(cfg, limited, run).Some?
    requires PcOf(After(cfg, limited, run).value, t).Returned?
    requires PcOf(After(cfg, limited, run).value, t).asked == Some(RateLimited)
    ensures RefusedAt(cfg, limited, run, i, t)
  {
    var n := |run| - 1;
    var before := run[..n];
    RefusesHere(cfg, After(cfg, limited, before).value, run[n], t);
    if PcOf(After(cfg, limited, before).value, t) == PcOf(After(cfg, limited, run).value, t) {
      i := RefusalsTrip(cfg, limited, before, t);
      assert before[..i + 1] == run[..i + 1];
    } else {
      i := n;
      assert run[..n + 1] == run;
    }
  }

  lemma {:induction false} LimitedUntilResumed(cfg: Settings, limited: set<Entry>, run: seq<Event>, i: nat, entry: Entry)
    requires After(cfg, limited, run).Some? && i <= |run|
    requires After(cfg, limited, run[..i]).Some? && entry in After(cfg, limited, run[..i]).value.limited
    requires forall k :: i <= k < |run| ==> run[k] != Resume(entry)
    ensures entry in After(cfg, limited, run).value.limited
  {
    if i == |run| {
      assert run[..i] == run;
    } else {
      var n := |run| - 1;
      assert run[..n][..i] == run[..i];
      LimitedUntilResumed(cfg, limited, run[..n], i, entry);
      StepLimits(cfg, After(cfg, limited, run[..n]).value, run[n], entry);
    }
  }

  lemma ReturnedStays(cfg: Settings, s: State, e: Event, t: nat)
    requires Next(cfg, s, e).Some? && PcOf(s, t).Returned?
    ensures PcOf(Next(cfg, s, e).value, t) == PcOf(s, t)
  {
    if !IsFlowEvent(e) {
      OutsideStays(cfg, s, e);
    } else {
      ReturnedIsLast(cfg, s, e, t);
      StepsAlone(cfg, s, e);
    }
  }

  /** A flow that returned takes no more steps. */
  lemma ReturnedIsLast(cfg: Settings, s: State, e: Event, t: nat)
    requires IsFlowEvent(e) && FlowStep(cfg, s, e).Some? && PcOf(s, t).Returned?
    ensures e.task != t
  {
  }

  lemma {:induction false} ReturnedForever(cfg: Settings, limited: set<Entry>, run: seq<Event>, j: nat, t: nat)
    requires After(cfg, limited, run).Some? && j <= |run|
    requires After(cfg, limited, run[..j]).Some? && PcOf(After(cfg, limited, run[..j]).value, t).Returned?
    ensures PcOf(After(cfg, limited, run).value, t) == PcOf(After(cfg, limited, run[..j]).value, t)
  {
    if j == |run| {
      assert run[..j] == run;
    } else {
      var n := |run| - 1;
      assert run[..n][..j] == run[..j];
      ReturnedForever(cfg, limited, run[..n], j, t);
      ReturnedStays(cfg, After(cfg, limited, run[..n]).value, run[n], t);
    }
  }

  /** At step `j` flow `t` comes to its check while a limit that was in force at
      step `i` has not been lifted. */
  ghost predicate ComesLimited(cfg: Settings, limited: set<Entry>, run: seq<Event>, i: nat, j: nat, t: nat) {
    && i <= j < |run| && run[j] == CheckLimited(t)
    && After(cfg, limited, run[..i]).Some? && After(cfg, limited, run[..j]).Some?
    && t in After(cfg, limited, run[..j]).value.tasks
    && var entry := After(cfg, limited, run[..j]).value.tasks[t].entry;
       entry in After(cfg, limited, run[..i]).value.limited && forall k :: i <= k < j ==> run[k] != Resume(entry)
  }

  /** From a tripped limit to its `resume`, every flow that comes to its check is
      refused, even one that a rule would allow; and whatever happens later, also
      a `resume`, it stays refused. */
  lemma LimitedFlowsAreRefused(cfg: Settings, limited: set<Entry>, run: seq<Event>, i: nat, j: nat, t: nat)
    requires After(cfg, limited, run).Some? && ComesLimited(cfg, limited, run, i, j, t)
    ensures PcOf(After(cfg, limited, run).value, t) == Returned(false, None)
  {
    PrefixPossible(cfg, limited, run, j + 1);
    RefusedAtOnce(cfg, limited, run, i, j, t);
    ReturnedForever(cfg, limited, run, j + 1, t);
  }

  lemma RefusedAtOnce(cfg: Settings, limited: set<Entry>, run: seq<Event>, i: nat, j: nat, t: nat)
    requires ComesLimited(cfg, limited, run, i, j, t) && After(cfg, limited, run[..j + 1]).Some?
    ensures PcOf(After(cfg, limited, run[..j + 1]).value, t) == Returned(false, None)
  {
    assert run[..j + 1][..j] == run[..j] && run[..j][..i] == run[..i];
    LimitedUntilResumed(cfg, limited, run[..j], i, After(cfg, limited, run[..j]).value.tasks[t].entry);
  }
}
