/** What the approval protocol guarantees over whole runs. */
module ApprovalTheorems {
  import opened Net
  import opened ApprovalQueue
  import opened ApprovalProtocol
  import Coalescing = ApprovalCoalescing
  import Prompts = ApprovalPrompts
  import Outcomes = ApprovalOutcomes

  //--- coalescing --------------------------------------------------------------------------------

  /** A flow that owns the key and has not yet passed its removal; `dropped`
      when the flow was dropped while it owned the key. */
  ghost predicate Leader(s: State, t: nat, key: Key, dropped: bool) {
    && t in s.tasks && s.tasks[t].key == key
    && Coalescing.PartOf(s.tasks[t].pc).Leads?
    && Coalescing.PartOf(s.tasks[t].pc).abandoned == dropped
  }

  /** In every reachable state a key is in flight exactly when one flow leads
      it, dropped or not, and that flow's channel is the one in the map. */
  lemma CoalescingIsExclusive(cfg: Settings, limited: set<Entry>, run: seq<Event>, key: Key)
    requires After(cfg, limited, run).Some?
    ensures var s := After(cfg, limited, run).value;
            && (key in s.queue.inflight <==> exists t, dropped :: Leader(s, t, key, dropped))
            && (forall t, dropped :: Leader(s, t, key, dropped) ==>
                  s.queue.inflight[key] == Coalescing.PartOf(s.tasks[t].pc).channel)
            && (forall t, u, d1, d2 :: Leader(s, t, key, d1) && Leader(s, u, key, d2) ==> t == u && d1 == d2)
  {
    Coalescing.RunKeeps(cfg, limited, run);
    var s := After(cfg, limited, run).value;
    if key in s.queue.inflight {
      var c := s.queue.inflight[key];
      assert Coalescing.KeyOk(s, key) && Coalescing.ChannelOk(s, c);
      assert Leader(s, s.channels[c].owner, key, Coalescing.PartOf(s.tasks[s.channels[c].owner].pc).abandoned);
    }
    forall t, dropped | Leader(s, t, key, dropped)
      ensures key in s.queue.inflight && s.queue.inflight[key] == Coalescing.PartOf(s.tasks[t].pc).channel
      ensures s.channels[s.queue.inflight[key]].owner == t
    {
      assert Coalescing.PartOk(s, t);
    }
  }

  /** Whether a leader of `key` was dropped in its `select!` at step `i`. */
  ghost predicate DropsLeader(cfg: Settings, limited: set<Entry>, run: seq<Event>, i: nat, t: nat)
    requires After(cfg, limited, run).Some?
  {
    i < |run| && run[i] == Drop(t)
    && After(cfg, limited, run[..i]).Some? && PcOf(After(cfg, limited, run[..i]).value, t).Waiting?
  }

  lemma AbandonedForever(cfg: Settings, s: State, e: Event, t: nat)
    requires Next(cfg, s, e).Some?
    ensures PcOf(s, t).Abandoned? ==> PcOf(Next(cfg, s, e).value, t).Abandoned?
    ensures PcOf(Next(cfg, s, e).value, t).Abandoned? ==>
              PcOf(s, t).Abandoned? || (e == Drop(t) && PcOf(s, t).Waiting?)
  {
    if IsFlowEvent(e) {
      FlowAbandons(cfg, s, e, t);
    }
  }

  lemma FollowerAbandons(cfg: Settings, s: State, e: Event, t: nat)
    requires IsFlowEvent(e) && FlowStep(cfg, s, e).Some? && PcOf(s, e.task).Following?
    ensures PcOf(FlowStep(cfg, s, e).value, t).Abandoned? <==> PcOf(s, t).Abandoned?
  {
  }

  lemma OwnerAbandons(cfg: Settings, s: State, e: Event, t: nat)
    requires (e.Enter? || e.Release? || e.Publish? || e.Drop?) && FlowStep(cfg, s, e).Some?
    ensures PcOf(s, t).Abandoned? ==> PcOf(FlowStep(cfg, s, e).value, t).Abandoned?
    ensures PcOf(FlowStep(cfg, s, e).value, t).Abandoned? ==>
              PcOf(s, t).Abandoned? || (e == Drop(t) && PcOf(s, t).Waiting?)
  {
  }

  lemma FlowAbandons(cfg: Settings, s: State, e: Event, t: nat)
    requires IsFlowEvent(e) && FlowStep(cfg, s, e).Some?
    ensures PcOf(s, t).Abandoned? ==> PcOf(FlowStep(cfg, s, e).value, t).Abandoned?
    ensures PcOf(FlowStep(cfg, s, e).value, t).Abandoned? ==>
              PcOf(s, t).Abandoned? || (e == Drop(t) && PcOf(s, t).Waiting?)
  {
    if PcOf(s, e.task).Following? {
      FollowerAbandons(cfg, s, e, t);
    } else if e.Enter? || e.Release? || e.Publish? || e.Drop? {
      OwnerAbandons(cfg, s, e, t);
    } else {
      Coalescing.QuietStepStays(cfg, s, e);
    }
  }

  /** A prefix of a possible run is possible. */
  lemma {:induction false} PrefixPossible(cfg: Settings, limited: set<Entry>, run: seq<Event>, i: nat)
    requires After(cfg, limited, run).Some? && i <= |run|
    ensures After(cfg, limited, run[..i]).Some?
  {
    if i == |run| {
      assert run[..i] == run;
    } else {
      assert run[..|run| - 1][..i] == run[..i];
      PrefixPossible(cfg, limited, run[..|run| - 1], i);
    }
  }

  /** A flow ends up abandoned exactly when it was dropped as a waiting leader. */
  lemma {:induction false} AbandonedIffDropped(cfg: Settings, limited: set<Entry>, run: seq<Event>, t: nat)
    requires After(cfg, limited, run).Some?
    ensures PcOf(After(cfg, limited, run).value, t).Abandoned? <==>
              exists i :: 0 <= i < |run| && DropsLeader(cfg, limited, run, i, t)
  {
    if run != [] {
      var n := |run| - 1;
      var before := run[..n];
      AbandonedIffDropped(cfg, limited, before, t);
      AbandonedForever(cfg, After(cfg, limited, before).value, run[n], t);
      forall i | 0 <= i < n
        ensures before[..i] == run[..i]
        ensures DropsLeader(cfg, limited, before, i, t) <==> DropsLeader(cfg, limited, run, i, t)
      {
        assert before[..i] == run[..i];
      }
      if PcOf(After(cfg, limited, run).value, t).Abandoned? && !PcOf(After(cfg, limited, before).value, t).Abandoned? {
        DroppedHere(cfg, limited, run, t);
      }
      if exists i :: 0 <= i < |run| && DropsLeader(cfg, limited, run, i, t) {
        var i :| 0 <= i < |run| && DropsLeader(cfg, limited, run, i, t);
        if i == n { DropAbandons(cfg, limited, run, t); }
      }
    }
  }

  lemma DroppedHere(cfg: Settings, limited: set<Entry>, run: seq<Event>, t: nat)
    requires After(cfg, limited, run).Some? && run != []
    requires PcOf(After(cfg, limited, run).value, t).Abandoned?
    requires !PcOf(After(cfg, limited, run[..|run| - 1]).value, t).Abandoned?
    ensures DropsLeader(cfg, limited, run, |run| - 1, t)
  {
    AbandonedForever(cfg, After(cfg, limited, run[..|run| - 1]).value, run[|run| - 1], t);
  }

  lemma DropAbandons(cfg: Settings, limited: set<Entry>, run: seq<Event>, t: nat)
    requires After(cfg, limited, run).Some? && run != []
    requires DropsLeader(cfg, limited, run, |run| - 1, t)
    ensures PcOf(After(cfg, limited, run).value, t).Abandoned?
  {
  }

  /** A key stays behind without a live leader exactly when its leader was
      dropped: the removal after the `select!` never runs. */
  lemma StaleKeyIffDroppedLeader(cfg: Settings, limited: set<Entry>, run: seq<Event>, key: Key)
    requires After(cfg, limited, run).Some?
    ensures var s := After(cfg, limited, run).value;
            (key in s.queue.inflight && !(exists t :: Leader(s, t, key, false)))
            <==> exists t, i :: t in s.tasks && s.tasks[t].key == key && 0 <= i < |run| && DropsLeader(cfg, limited, run, i, t)
  {
    CoalescingIsExclusive(cfg, limited, run, key);
    var s := After(cfg, limited, run).value;
    forall t | t in s.tasks && s.tasks[t].key == key
      ensures Leader(s, t, key, true) <==> exists i :: 0 <= i < |run| && DropsLeader(cfg, limited, run, i, t)
    {
      DroppedLeader(cfg, limited, run, t);
    }
  }

  lemma DroppedLeader(cfg: Settings, limited: set<Entry>, run: seq<Event>, t: nat)
    requires After(cfg, limited, run).Some? && t in After(cfg, limited, run).value.tasks
    ensures var s := After(cfg, limited, run).value;
            Leader(s, t, s.tasks[t].key, true) <==> exists i :: 0 <= i < |run| && DropsLeader(cfg, limited, run, i, t)
  {
    AbandonedIffDropped(cfg, limited, run, t);
  }

  /** Without dropped leaders, a key is in flight exactly when a live flow leads it. */
  lemma NoDropsMeansLiveLeader(cfg: Settings, limited: set<Entry>, run: seq<Event>, key: Key)
    requires After(cfg, limited, run).Some?
    requires forall i, u :: 0 <= i < |run| ==> !DropsLeader(cfg, limited, run, i, u)
    ensures var s := After(cfg, limited, run).value;
            key in s.queue.inflight <==> exists t :: Leader(s, t, key, false)
  {
    CoalescingIsExclusive(cfg, limited, run, key);
    StaleKeyIffDroppedLeader(cfg, limited, run, key);
  }

  /** At most one prompt per key is live, no id is given twice, and at most one
      dialog is on screen. */
  lemma OnePromptOneDialog(cfg: Settings, limited: set<Entry>, run: seq<Event>, t: nat, u: nat)
    requires After(cfg, limited, run).Some?
    requires var s := After(cfg, limited, run).value;
             && t in s.tasks && u in s.tasks
             && ((PcOf(s, t).Waiting? && PcOf(s, u).Waiting? && s.tasks[t].key == s.tasks[u].key)
                 || (Prompts.PromptOf(PcOf(s, t)).Some? && Prompts.PromptOf(PcOf(s, t)) == Prompts.PromptOf(PcOf(s, u)))
                 || (Prompts.OnScreen(PcOf(s, t)) && Prompts.OnScreen(PcOf(s, u))))
    ensures t == u
  {
    var s := After(cfg, limited, run).value;
    Prompts.RunKeeps(cfg, limited, run);
    if PcOf(s, t).Waiting? && PcOf(s, u).Waiting? && s.tasks[t].key == s.tasks[u].key {
      CoalescingIsExclusive(cfg, limited, run, s.tasks[t].key);
      assert Leader(s, t, s.tasks[t].key, false) && Leader(s, u, s.tasks[t].key, false);
    }
  }

  //--- followers ---------------------------------------------------------------------------------

  /** A flow that asked without leading returned its own cancellation, or a
      non-cancelled outcome that a leader of the same key, which it followed,
      published and returned itself. */
  lemma FollowersAgree(cfg: Settings, limited: set<Entry>, run: seq<Event>, t: nat)
    requires After(cfg, limited, run).Some?
    requires var s := After(cfg, limited, run).value;
             t in s.tasks && !s.tasks[t].led && Coalescing.PartOf(s.tasks[t].pc).Got?
    ensures var s := After(cfg, limited, run).value;
            var outcome := Coalescing.PartOf(s.tasks[t].pc).outcome;
            if outcome.Cancelled? then s.tasks[t].cancelled
            else exists c :: c in s.tasks[t].followed && c < |s.channels| && LedAndReturned(s, t, c, outcome)
  {
    Outcomes.RunAgrees(cfg, limited, run);
    Coalescing.RunKeeps(cfg, limited, run);
    var s := After(cfg, limited, run).value;
    var outcome := Coalescing.PartOf(s.tasks[t].pc).outcome;
    assert Outcomes.Agrees(s, t);
    if !outcome.Cancelled? {
      var c :| c in s.tasks[t].followed && c < |s.channels| && s.channels[c].value == Some(outcome);
      PublishedByOwner(s, t, c);
    }
  }

  /** Another flow with `t`'s key led on the channel, published the outcome there
      and returned it. */
  ghost predicate LedAndReturned(s: State, t: nat, c: nat, outcome: Outcome)
    requires t in s.tasks && c < |s.channels|
  {
    var leader := s.channels[c].owner;
    && leader in s.tasks && leader != t && s.tasks[leader].led && s.tasks[leader].key == s.tasks[t].key
    && s.channels[c].value == Some(outcome) && Coalescing.PartOf(s.tasks[leader].pc) == Coalescing.Got(outcome)
  }

  lemma PublishedByOwner(s: State, t: nat, c: nat)
    requires Coalescing.Coalesced(s) && t in s.tasks && c in s.tasks[t].followed
    requires c < |s.channels| && s.channels[c].value.Some?
    ensures LedAndReturned(s, t, c, s.channels[c].value.value)
  {
    assert Coalescing.HistoryOk(s, t) && Coalescing.ChannelOk(s, c);
    assert Coalescing.FollowedOk(s, t, c);
  }

  //--- admissions --------------------------------------------------------------------------------

  /** Flow `t` passes the rate-limit check at step `i`. */
  ghost predicate PassesCheck(cfg: Settings, limited: set<Entry>, run: seq<Event>, i: nat, t: nat) {
    && i < |run| && run[i] == CheckLimited(t) && After(cfg, limited, run[..i]).Some?
    && var s := After(cfg, limited, run[..i]).value; t in s.tasks && s.tasks[t].entry !in s.limited
  }

  /** At step `i` a human answers waiting flow `u`: through `decide` on the flow's
      own id while the flow still listens, or in its own dialog. */
  ghost predicate HumanAnswers(cfg: Settings, limited: set<Entry>, run: seq<Event>, i: nat, u: nat, outcome: Outcome) {
    && i < |run| && After(cfg, limited, run[..i]).Some?
    && var s := After(cfg, limited, run[..i]).value;
       match run[i]
       case AnswerDialog(t, o) => o == outcome && t == u && u in s.tasks
       case Decide(id, o) => o == outcome && Reachable(s, id) && s.queue.pending[id].task == u
       case _ => false
  }

  /** The outcome is flow `u`'s to give to flow `t`: they are the same and it led,
      or `t` followed a channel on which `u` led for the same key, published the
      outcome and returned it. */
  ghost predicate GivenBy(s: State, t: nat, u: nat, outcome: Outcome)
    requires t in s.tasks
  {
    if s.tasks[t].led then u == t
    else exists c :: c in s.tasks[t].followed && c < |s.channels| && s.channels[c].owner == u
           && LedAndReturned(s, t, c, outcome)
  }

  /** The log of a run, traced back to the steps it came from. */
  lemma {:induction false} PassedTraced(cfg: Settings, limited: set<Entry>, run: seq<Event>, t: nat) returns (i: nat)
    requires After(cfg, limited, run).Some? && t in Outcomes.LogOf(cfg, limited, run).passed
    ensures PassesCheck(cfg, limited, run, i, t)
  {
    var n := |run| - 1;
    var before := run[..n];
    if t in Outcomes.LogOf(cfg, limited, before).passed {
      i := PassedTraced(cfg, limited, before, t);
      assert before[..i] == run[..i];
    } else {
      i := n;
    }
  }

  lemma {:induction false} StoredTraced(cfg: Settings, limited: set<Entry>, run: seq<Event>, t: nat) returns (i: nat)
    requires After(cfg, limited, run).Some? && t in Outcomes.LogOf(cfg, limited, run).stored
    ensures i < |run| && run[i] == Consult(t, StoredAllow)
  {
    var n := |run| - 1;
    if t in Outcomes.LogOf(cfg, limited, run[..n]).stored {
      i := StoredTraced(cfg, limited, run[..n], t);
    } else {
      i := n;
    }
  }

  lemma {:induction false} GivenTraced(cfg: Settings, limited: set<Entry>, run: seq<Event>, u: nat, outcome: Outcome)
    returns (i: nat)
    requires After(cfg, limited, run).Some? && (u, outcome) in Outcomes.LogOf(cfg, limited, run).given
    ensures HumanAnswers(cfg, limited, run, i, u, outcome)
  {
    var n := |run| - 1;
    var before := run[..n];
    if (u, outcome) in Outcomes.LogOf(cfg, limited, before).given {
      i := GivenTraced(cfg, limited, before, u, outcome);
      assert before[..i] == run[..i];
    } else {
      i := n;
    }
  }

  /** A flow is only let through after a check that found its sandbox not
      limited, and then by a stored allow, or by a human's Allow or Temp given to
      the flow itself or to the leader it followed. Time-outs, cancellation and
      the rate limit never let a flow through. */
  lemma AdmissionsAreJustified(cfg: Settings, limited: set<Entry>, run: seq<Event>, t: nat)
    requires After(cfg, limited, run).Some?
    requires PcOf(After(cfg, limited, run).value, t).Returned? && PcOf(After(cfg, limited, run).value, t).allowed
    ensures var s := After(cfg, limited, run).value;
            var asked := s.tasks[t].pc.asked;
            && (exists i :: PassesCheck(cfg, limited, run, i, t))
            && (asked.None? ==> exists i :: 0 <= i < |run| && run[i] == Consult(t, StoredAllow))
            && (asked.Some? ==> asked.value.Allow? || asked.value.Temp?)
            && (asked.Some? ==>
                  exists i, u :: HumanAnswers(cfg, limited, run, i, u, asked.value) && GivenBy(s, t, u, asked.value))
  {
    var s := After(cfg, limited, run).value;
    JustifiedFlow(cfg, limited, run, t);
    var i := PassedTraced(cfg, limited, run, t);
    if s.tasks[t].pc.asked.None? {
      var j := StoredTraced(cfg, limited, run, t);
    } else {
      var u := AnsweredFlow(cfg, limited, run, t);
      var j := GivenTraced(cfg, limited, run, u, s.tasks[t].pc.asked.value);
      assert HumanAnswers(cfg, limited, run, j, u, s.tasks[t].pc.asked.value);
    }
  }

  /** The flow whose prompt a returned answer came from. */
  lemma AnsweredFlow(cfg: Settings, limited: set<Entry>, run: seq<Event>, t: nat) returns (u: nat)
    requires After(cfg, limited, run).Some?
    requires var pc := PcOf(After(cfg, limited, run).value, t);
             pc.Returned? && pc.asked.Some? && IsAnswer(pc.asked.value)
    ensures var s := After(cfg, limited, run).value;
            && GivenBy(s, t, u, s.tasks[t].pc.asked.value)
            && (u, s.tasks[t].pc.asked.value) in Outcomes.LogOf(cfg, limited, run).given
  {
    var s := After(cfg, limited, run).value;
    var outcome := s.tasks[t].pc.asked.value;
    Outcomes.RunJustified(cfg, limited, run);
    if s.tasks[t].led {
      assert Outcomes.FlowOk(s, Outcomes.LogOf(cfg, limited, run), t);
      u := t;
    } else {
      Outcomes.RunAgrees(cfg, limited, run);
      Coalescing.RunKeeps(cfg, limited, run);
      assert Outcomes.Agrees(s, t);
      var c :| c in s.tasks[t].followed && c < |s.channels| && s.channels[c].value == Some(outcome);
      PublishedByOwner(s, t, c);
      assert Outcomes.PublishedOk(s, Outcomes.LogOf(cfg, limited, run), c);
      u := s.channels[c].owner;
    }
  }

  lemma JustifiedFlow(cfg: Settings, limited: set<Entry>, run: seq<Event>, t: nat)
    requires After(cfg, limited, run).Some? && t in After(cfg, limited, run).value.tasks
    ensures Outcomes.FlowOk(After(cfg, limited, run).value, Outcomes.LogOf(cfg, limited, run), t)
  {
    Outcomes.RunJustified(cfg, limited, run);
  }
}
