/** What answers do over runs of the whole broker: an admission's steps amount to
    one admission, and when a flow can still come to ask on its own. */
module BrokerAnswers {
  import opened Net
  import opened HostPatterns
  import opened Decision
  import opened RuleEdits
  import opened Answers
  import opened Registry
  import opened LaterFlows
  import opened BrokerRuns
  import Overlaps = ApprovalOverlaps
  import P = ApprovalProtocol
  import Q = ApprovalQueue
  import Runs = ApprovalRuns

  lemma OneStepMore(home: Home, cfg: Q.Settings, w: World, run: seq<Event>, e: Event)
    requires After(home, cfg, w, run).Some?
    ensures After(home, cfg, w, run + [e]) == Step(home, cfg, After(home, cfg, w, run).value, e)
  {
    assert (run + [e])[..|run|] == run;
  }

  //--- one admission -----------------------------------------------------------------------------

  predicate HasConsulted(pc: P.Pc) {
    !pc.Starting? && !pc.Unlimited?
  }

  lemma ConsultedStays(cfg: Q.Settings, s: P.State, e: P.Event, t: nat)
    requires P.Next(cfg, s, e).Some? && t in s.tasks && HasConsulted(P.PcOf(s, t))
    ensures HasConsulted(P.PcOf(P.Next(cfg, s, e).value, t))
  {
    if !P.IsFlowEvent(e) {
      Runs.OutsideStays(cfg, s, e);
    } else if e.task != t {
      Runs.StepsAlone(cfg, s, e);
    } else {
      OwnConsultedStays(cfg, s, e);
    }
  }

  lemma OwnConsultedStays(cfg: Q.Settings, s: P.State, e: P.Event)
    requires P.IsFlowEvent(e) && P.FlowStep(cfg, s, e).Some? && HasConsulted(P.PcOf(s, e.task))
    ensures HasConsulted(P.PcOf(P.FlowStep(cfg, s, e).value, e.task))
  {
  }

  /** A flow that has consulted keeps what it found. */
  ghost predicate Keeps(w: World, w': World, t: nat) {
    && t in w.flows && t in w.queue.tasks && t in w'.flows && t in w'.queue.tasks
    && w'.flows[t] == w.flows[t] && w'.queue.tasks[t].entry == w.queue.tasks[t].entry
    && HasConsulted(w'.queue.tasks[t].pc)
  }

  lemma StepKeepsFlow(home: Home, cfg: Q.Settings, w: World, e: Event, t: nat)
    requires t in w.flows && t in w.queue.tasks && HasConsulted(w.queue.tasks[t].pc) && Step(home, cfg, w, e).Some?
    ensures Keeps(w, Step(home, cfg, w, e).value, t)
  {
    if !e.Edit? {
      Runs.StepSameFlows(cfg, w.queue, Seen(home, w, e)[0]);
      ConsultedStays(cfg, w.queue, Seen(home, w, e)[0], t);
    }
  }

  lemma {:induction false} RunKeepsFlow(home: Home, cfg: Q.Settings, w: World, run: seq<Event>, t: nat)
    requires t in w.flows && t in w.queue.tasks && HasConsulted(w.queue.tasks[t].pc) && After(home, cfg, w, run).Some?
    ensures Keeps(w, After(home, cfg, w, run).value, t)
  {
    if run != [] {
      var n := |run| - 1;
      RunKeepsFlow(home, cfg, w, run[..n], t);
      StepKeepsFlow(home, cfg, After(home, cfg, w, run[..n]).value, run[n], t);
    }
  }

  /** A flow's consultation that asks, and its settling after any number of
      other steps, are together one admission with the outcome it was given, if
      the flow's rules and grants are then what it had consulted. */
  lemma StepsAreOneAdmission(home: Home, cfg: Q.Settings, w: World, t: nat, now: int, run: seq<Event>, settled: int)
    requires Step(home, cfg, w, Consult(t, now)).Some?
    requires Decided(home, w.book, w.queue.tasks[t].entry, w.flows[t].admission, now).Prompt?
    requires var w1 := Step(home, cfg, w, Consult(t, now)).value;
             && After(home, cfg, w1, run).Some?
             && var w2 := After(home, cfg, w1, run).value;
                && Step(home, cfg, w2, Settle(t, settled)).Some?
                && BoxOf(home, w2.book, w.queue.tasks[t].entry) == BoxOf(home, w.book, w.queue.tasks[t].entry)
    ensures var entry := w.queue.tasks[t].entry;
            var w2 := After(home, cfg, Step(home, cfg, w, Consult(t, now)).value, run).value;
            var w3 := Step(home, cfg, w2, Settle(t, settled)).value;
            var outcome := P.PcOf(w2.queue, t).outcome;
            var r := AdmitFlow(home.text, w.book.globals, BoxOf(home, w.book, entry), w.flows[t].admission, outcome, now,
                               settled + home.tempAllow);
            && r.asked && P.PcOf(w3.queue, t) == P.Returned(r.allowed, Some(outcome))
            && BoxOf(home, w3.book, entry).table == r.after.table
            && BoxOf(home, w3.book, entry).session == r.after.session
  {
    var w1 := Step(home, cfg, w, Consult(t, now)).value;
    RunKeepsFlow(home, cfg, w1, run, t);
    var w2 := After(home, cfg, w1, run).value;
    SettleWrites(home, cfg, w2, t, settled);
  }

  lemma SettleWrites(home: Home, cfg: Q.Settings, w: World, t: nat, now: int)
    requires Step(home, cfg, w, Settle(t, now)).Some?
    ensures t in w.queue.tasks && t in w.flows && P.PcOf(w.queue, t).Applying?
    ensures var entry, outcome := w.queue.tasks[t].entry, P.PcOf(w.queue, t).outcome;
            var w' := Step(home, cfg, w, Settle(t, now)).value;
            var s := Applied(home.text, BoxOf(home, w.book, entry), w.flows[t].subjects, outcome, now + home.tempAllow);
            && P.PcOf(w'.queue, t) == P.Returned(outcome.Allow? || outcome.Temp?, Some(outcome))
            && BoxOf(home, w'.book, entry) == s && w'.book.globals == w.book.globals && w'.clock == now
            && w'.flows == w.flows
  {
  }

  //--- being asked about -------------------------------------------------------------------------

  /** The run goes on so that the flow leads, and nothing is written meanwhile. */
  ghost predicate AsksIn(home: Home, cfg: Q.Settings, w: World, t: nat, more: seq<Event>) {
    && Untouched(home, cfg, w, more)
    && exists j: nat :: LeadsAt(home, cfg, w, t, more, j)
  }

  ghost predicate LeadsAt(home: Home, cfg: Q.Settings, w: World, t: nat, more: seq<Event>, j: nat) {
    && j < |more| && more[j] == Queue(P.Enter(t)) && After(home, cfg, w, more[..j]).Some?
    && var s := After(home, cfg, w, more[..j]).value.queue;
       P.PcOf(s, t).Asking? && s.tasks[t].key !in s.queue.inflight
  }

  ghost predicate Untouched(home: Home, cfg: Q.Settings, w: World, more: seq<Event>) {
    forall k :: 0 <= k <= |more| ==>
      After(home, cfg, w, more[..k]).Some? && After(home, cfg, w, more[..k]).value.book == w.book
  }

  ghost predicate CanAsk(home: Home, cfg: Q.Settings, w: World, t: nat) {
    exists more :: AsksIn(home, cfg, w, t, more)
  }

  /** At some time from now on the stored rules and grants do not decide the flow. */
  ghost predicate IsUndecided(home: Home, w: World, t: nat)
    requires t in w.flows && t in w.queue.tasks
  {
    exists now :: now >= w.clock && Decided(home, w.book, w.queue.tasks[t].entry, w.flows[t].admission, now).Prompt?
  }

  ghost predicate MayAsk(home: Home, cfg: Q.Settings, w: World, t: nat)
    requires t in w.flows && t in w.queue.tasks
  {
    && Overlaps.MayLead(cfg, w.queue, t)
    && (HasConsulted(w.queue.tasks[t].pc) || IsUndecided(home, w, t))
  }

  //--- only if -----------------------------------------------------------------------------------

  /** The flow has not consulted, or was decided when it did. */
  predicate IsQuiet(pc: P.Pc) {
    pc.Starting? || pc.Unlimited? || (pc.Returned? && pc.asked.None?)
  }

  lemma OwnQuietStays(cfg: Q.Settings, s: P.State, e: P.Event)
    requires P.IsFlowEvent(e) && P.FlowStep(cfg, s, e).Some? && IsQuiet(P.PcOf(s, e.task))
    requires e != P.Consult(e.task, P.MustAsk)
    ensures IsQuiet(P.PcOf(P.FlowStep(cfg, s, e).value, e.task))
  {
  }

  lemma QuietStays(cfg: Q.Settings, s: P.State, e: P.Event, t: nat)
    requires P.Next(cfg, s, e).Some? && t in s.tasks && IsQuiet(P.PcOf(s, t)) && e != P.Consult(t, P.MustAsk)
    ensures IsQuiet(P.PcOf(P.Next(cfg, s, e).value, t))
  {
    if !P.IsFlowEvent(e) {
      Runs.OutsideStays(cfg, s, e);
    } else if e.task != t {
      Runs.StepsAlone(cfg, s, e);
    } else {
      OwnQuietStays(cfg, s, e);
    }
  }

  ghost predicate SameAdmission(w: World, w': World, t: nat) {
    && t in w.flows && t in w.queue.tasks && t in w'.flows && t in w'.queue.tasks
    && w'.flows[t].admission == w.flows[t].admission && w'.queue.tasks[t].entry == w.queue.tasks[t].entry
    && w'.clock >= w.clock
  }

  lemma StepSameAdmission(home: Home, cfg: Q.Settings, w: World, e: Event, t: nat)
    requires t in w.flows && t in w.queue.tasks && Step(home, cfg, w, e).Some?
    ensures SameAdmission(w, Step(home, cfg, w, e).value, t)
  {
    if !e.Edit? {
      Runs.StepSameFlows(cfg, w.queue, Seen(home, w, e)[0]);
    }
  }

  /** A decided flow is not sent to ask by a step. */
  lemma DecidedStaysQuiet(home: Home, cfg: Q.Settings, w: World, e: Event, t: nat)
    requires t in w.flows && t in w.queue.tasks && IsQuiet(w.queue.tasks[t].pc) && Step(home, cfg, w, e).Some?
    requires !IsUndecided(home, w, t)
    ensures IsQuiet(P.PcOf(Step(home, cfg, w, e).value.queue, t))
  {
    if !e.Edit? {
      assert Seen(home, w, e)[0] != P.Consult(t, P.MustAsk);
      QuietStays(cfg, w.queue, Seen(home, w, e)[0], t);
    }
  }

  lemma UntouchedBefore(home: Home, cfg: Q.Settings, w: World, more: seq<Event>, n: nat)
    requires Untouched(home, cfg, w, more) && n <= |more|
    ensures Untouched(home, cfg, w, more[..n])
  {
    forall k | 0 <= k <= n ensures more[..n][..k] == more[..k] {
    }
  }

  lemma {:induction false} DecidedIsNeverSent(home: Home, cfg: Q.Settings, w: World, more: seq<Event>, t: nat)
    requires t in w.flows && t in w.queue.tasks && IsQuiet(w.queue.tasks[t].pc) && !IsUndecided(home, w, t)
    requires Untouched(home, cfg, w, more)
    ensures After(home, cfg, w, more).Some?
    ensures SameAdmission(w, After(home, cfg, w, more).value, t)
    ensures IsQuiet(P.PcOf(After(home, cfg, w, more).value.queue, t))
  {
    assert more[..|more|] == more;
    if more != [] {
      var n := |more| - 1;
      UntouchedBefore(home, cfg, w, more, n);
      DecidedIsNeverSent(home, cfg, w, more[..n], t);
      var before := After(home, cfg, w, more[..n]).value;
      StillDecided(home, w, before, t);
      StepSameAdmission(home, cfg, before, more[n], t);
      DecidedStaysQuiet(home, cfg, before, more[n], t);
    }
  }

  lemma StillDecided(home: Home, w: World, w': World, t: nat)
    requires SameAdmission(w, w', t) && w'.book == w.book && !IsUndecided(home, w, t)
    ensures !IsUndecided(home, w', t)
  {
  }

  lemma AsksOnlyIf(home: Home, cfg: Q.Settings, limited: set<P.Entry>, past: seq<P.Event>, w: World, t: nat, more: seq<Event>)
    requires P.After(cfg, limited, past) == Some(w.queue) && t in w.flows && t in w.queue.tasks
    requires AsksIn(home, cfg, w, t, more)
    ensures MayAsk(home, cfg, w, t)
  {
    var j: nat :| LeadsAt(home, cfg, w, t, more, j);
    UntouchedBefore(home, cfg, w, more, j);
    SeenLeading(home, cfg, limited, past, w, t, more[..j]);
    if !HasConsulted(w.queue.tasks[t].pc) && !IsUndecided(home, w, t) {
      DecidedIsNeverSent(home, cfg, w, more[..j], t);
    }
  }

  /** The queue's view of a run in which the flow then leads. */
  lemma SeenLeading(home: Home, cfg: Q.Settings, limited: set<P.Entry>, past: seq<P.Event>, w: World, t: nat, part: seq<Event>)
    requires P.After(cfg, limited, past) == Some(w.queue) && t in w.queue.tasks
    requires After(home, cfg, w, part).Some?
    requires var s := After(home, cfg, w, part).value.queue; P.PcOf(s, t).Asking? && s.tasks[t].key !in s.queue.inflight
    ensures Overlaps.MayLead(cfg, w.queue, t)
  {
    var s := After(home, cfg, w, part).value.queue;
    TraceIsARun(home, cfg, limited, past, w, part);
    var seen := Trace(home, cfg, w, part);
    Runs.Extend(cfg, limited, past + seen, P.Enter(t), s, P.EnterQueue(s, t));
    var more := seen + [P.Enter(t)];
    assert past + more == past + seen + [P.Enter(t)];
    assert (past + more)[..|past + seen|] == past + seen;
    assert Overlaps.Leads(cfg, limited, past + more, |past + seen|, t);
    Overlaps.LeadsOnlyIf(cfg, limited, past, t, more);
  }

  //--- if ----------------------------------------------------------------------------------------

  function Queued(events: seq<P.Event>): (run: seq<Event>)
    ensures |run| == |events|
    ensures forall k :: 0 <= k < |run| ==> run[k] == Queue(events[k])
  {
    seq(|events|, k requires 0 <= k < |events| => Queue(events[k]))
  }

  /** Plain steps of the queue are steps of the broker that write nothing. */
  lemma {:induction false} QueuedRuns(home: Home, cfg: Q.Settings, limited: set<P.Entry>, past: seq<P.Event>, w: World,
                                      events: seq<P.Event>)
    requires P.After(cfg, limited, past) == Some(w.queue)
    requires P.After(cfg, limited, past + events).Some? && Overlaps.Plain(events)
    ensures After(home, cfg, w, Queued(events)) == Some(w.(queue := P.After(cfg, limited, past + events).value))
  {
    if events == [] {
      assert past + events == past;
    } else {
      var n := |events| - 1;
      Overlaps.OneStepMore(cfg, limited, past, events);
      QueuedRuns(home, cfg, limited, past, w, events[..n]);
      assert Queued(events) == Queued(events[..n]) + [Queue(events[n])];
      OneStepMore(home, cfg, w, Queued(events[..n]), Queue(events[n]));
      QueuedStep(home, cfg, w, P.After(cfg, limited, past + events[..n]).value, events[n]);
    }
  }

  lemma QueuedStep(home: Home, cfg: Q.Settings, w: World, s: P.State, e: P.Event)
    requires Overlaps.IsPlain(e) && P.Next(cfg, s, e).Some?
    ensures Step(home, cfg, w.(queue := s), Queue(e)) == Some(w.(queue := P.Next(cfg, s, e).value))
  {
  }

  lemma QueuedTouchesNothing(home: Home, cfg: Q.Settings, limited: set<P.Entry>, past: seq<P.Event>, w: World,
                             events: seq<P.Event>)
    requires P.After(cfg, limited, past) == Some(w.queue)
    requires P.After(cfg, limited, past + events).Some? && Overlaps.Plain(events)
    ensures Untouched(home, cfg, w, Queued(events))
  {
    forall k | 0 <= k <= |events|
      ensures After(home, cfg, w, Queued(events)[..k]).Some? && After(home, cfg, w, Queued(events)[..k]).value.book == w.book
    {
      assert Queued(events)[..k] == Queued(events[..k]);
      assert past + events == past + events[..k] + events[k..];
      Runs.Continues(cfg, limited, past + events[..k], events[k..]);
      QueuedRuns(home, cfg, limited, past, w, events[..k]);
    }
  }

  /** A flow that was sent to ask, or follows, asks if it may. */
  lemma SentAsks(home: Home, cfg: Q.Settings, limited: set<P.Entry>, past: seq<P.Event>, w: World, t: nat)
    returns (more: seq<Event>)
    requires P.After(cfg, limited, past) == Some(w.queue)
    requires (P.PcOf(w.queue, t).Asking? || P.PcOf(w.queue, t).Following?) && Overlaps.MayLead(cfg, w.queue, t)
    ensures AsksIn(home, cfg, w, t, more)
  {
    var events := Overlaps.SentLeads(cfg, limited, past, w.queue, t);
    var j: nat :| |past| <= j && Overlaps.Leads(cfg, limited, past + events, j, t);
    more := Queued(events);
    QueuedTouchesNothing(home, cfg, limited, past, w, events);
    var part := events[..j - |past|];
    assert (past + events)[..j] == past + part && (past + events)[j] == events[j - |past|];
    QueuedRuns(home, cfg, limited, past, w, part);
    assert more[..j - |past|] == Queued(part);
    assert LeadsAt(home, cfg, w, t, more, j - |past|);
  }

  lemma UntouchedLater(home: Home, cfg: Q.Settings, w: World, e: Event, more: seq<Event>)
    requires Step(home, cfg, w, e).Some? && Step(home, cfg, w, e).value.book == w.book
    requires Untouched(home, cfg, Step(home, cfg, w, e).value, more)
    ensures Untouched(home, cfg, w, [e] + more)
  {
    forall k | 0 <= k <= |[e] + more|
      ensures After(home, cfg, w, ([e] + more)[..k]).Some? && After(home, cfg, w, ([e] + more)[..k]).value.book == w.book
    {
      if k > 0 {
        assert ([e] + more)[..k] == [e] + more[..k - 1];
        StepFirst(home, cfg, w, e, more[..k - 1]);
      }
    }
  }

  lemma AsksLater(home: Home, cfg: Q.Settings, w: World, e: Event, t: nat, more: seq<Event>)
    requires Step(home, cfg, w, e).Some? && Step(home, cfg, w, e).value.book == w.book
    requires AsksIn(home, cfg, Step(home, cfg, w, e).value, t, more)
    ensures AsksIn(home, cfg, w, t, [e] + more)
  {
    UntouchedLater(home, cfg, w, e, more);
    var j: nat :| LeadsAt(home, cfg, Step(home, cfg, w, e).value, t, more, j);
    assert ([e] + more)[..j + 1] == [e] + more[..j];
    StepFirst(home, cfg, w, e, more[..j]);
    assert LeadsAt(home, cfg, w, t, [e] + more, j + 1);
  }

  lemma {:induction false} StepFirst(home: Home, cfg: Q.Settings, w: World, e: Event, more: seq<Event>)
    requires Step(home, cfg, w, e).Some?
    ensures After(home, cfg, w, [e] + more) == After(home, cfg, Step(home, cfg, w, e).value, more)
  {
    if more == [] {
      OneStepMore(home, cfg, w, [], e);
      assert [e] + more == [] + [e];
    } else {
      var n := |more| - 1;
      StepFirst(home, cfg, w, e, more[..n]);
      assert ([e] + more)[..|more|] == [e] + more[..n];
      SameLast(home, cfg, w, Step(home, cfg, w, e).value, [e] + more, more);
    }
  }

  lemma SameLast(home: Home, cfg: Q.Settings, w: World, w': World, run: seq<Event>, run': seq<Event>)
    requires run != [] && run' != [] && run[|run| - 1] == run'[|run'| - 1]
    requires After(home, cfg, w, run[..|run| - 1]) == After(home, cfg, w', run'[..|run'| - 1])
    ensures After(home, cfg, w, run) == After(home, cfg, w', run')
  {
  }

  /** A flow about to consult is sent to ask when the stored rules leave it open. */
  lemma ConsultingAsks(home: Home, cfg: Q.Settings, limited: set<P.Entry>, past: seq<P.Event>, w: World, t: nat)
    returns (more: seq<Event>)
    requires P.After(cfg, limited, past) == Some(w.queue) && t in w.flows
    requires P.PcOf(w.queue, t).Unlimited? && Overlaps.MayLead(cfg, w.queue, t) && IsUndecided(home, w, t)
    ensures AsksIn(home, cfg, w, t, more)
  {
    var now :| now >= w.clock && Decided(home, w.book, w.queue.tasks[t].entry, w.flows[t].admission, now).Prompt?;
    var w' := Step(home, cfg, w, Consult(t, now)).value;
    StepIsSeen(home, cfg, limited, past, w, Consult(t, now));
    more := SentAsks(home, cfg, limited, past + Seen(home, w, Consult(t, now)), w', t);
    AsksLater(home, cfg, w, Consult(t, now), t, more);
    more := [Consult(t, now)] + more;
  }

  lemma StillUndecided(home: Home, w: World, w': World, t: nat)
    requires SameAdmission(w, w', t) && w'.book == w.book && w'.clock == w.clock && IsUndecided(home, w, t)
    ensures IsUndecided(home, w', t)
  {
    var now :| now >= w.clock && Decided(home, w.book, w.queue.tasks[t].entry, w.flows[t].admission, now).Prompt?;
    assert Decided(home, w'.book, w'.queue.tasks[t].entry, w'.flows[t].admission, now).Prompt?;
  }

  lemma ResumeLeaves(home: Home, cfg: Q.Settings, w: World, t: nat)
    requires t in w.flows && t in w.queue.tasks
    ensures Step(home, cfg, w, Queue(P.Resume(w.queue.tasks[t].entry))).Some?
    ensures var w' := Step(home, cfg, w, Queue(P.Resume(w.queue.tasks[t].entry))).value;
            && SameAdmission(w, w', t) && w'.queue.tasks == w.queue.tasks && w.queue.tasks[t].entry !in w'.queue.limited
            && w'.book == w.book && w'.clock == w.clock && w'.flows == w.flows
            && (Overlaps.MayLead(cfg, w.queue, t) ==> Overlaps.MayLead(cfg, w'.queue, t))
  {
  }

  lemma BeginningAsks(home: Home, cfg: Q.Settings, limited: set<P.Entry>, past: seq<P.Event>, w: World, t: nat)
    returns (more: seq<Event>)
    requires P.After(cfg, limited, past) == Some(w.queue) && t in w.flows
    requires P.PcOf(w.queue, t).Starting? && Overlaps.MayLead(cfg, w.queue, t) && IsUndecided(home, w, t)
    ensures AsksIn(home, cfg, w, t, more)
  {
    var resume := Queue(P.Resume(w.queue.tasks[t].entry));
    var w' := Step(home, cfg, w, resume).value;
    StepIsSeen(home, cfg, limited, past, w, resume);
    ResumeLeaves(home, cfg, w, t);
    StillUndecided(home, w, w', t);
    more := CheckingAsks(home, cfg, limited, past + Seen(home, w, resume), w', t);
    AsksLater(home, cfg, w, resume, t, more);
    more := [resume] + more;
  }

  /** A flow that comes to its check while its registration is not limited. */
  lemma CheckingAsks(home: Home, cfg: Q.Settings, limited: set<P.Entry>, past: seq<P.Event>, w: World, t: nat)
    returns (more: seq<Event>)
    requires P.After(cfg, limited, past) == Some(w.queue) && t in w.flows
    requires P.PcOf(w.queue, t).Starting? && Overlaps.MayLead(cfg, w.queue, t) && IsUndecided(home, w, t)
    requires w.queue.tasks[t].entry !in w.queue.limited
    ensures AsksIn(home, cfg, w, t, more)
  {
    var check := Queue(P.CheckLimited(t));
    var w' := Step(home, cfg, w, check).value;
    StepIsSeen(home, cfg, limited, past, w, check);
    StepSameAdmission(home, cfg, w, check, t);
    StillUndecided(home, w, w', t);
    more := ConsultingAsks(home, cfg, limited, past + Seen(home, w, check), w', t);
    AsksLater(home, cfg, w, check, t, more);
    more := [check] + more;
  }

  //--- exactly when ------------------------------------------------------------------------------

  /** From every reachable world, with no further writes: a flow can come to ask
      on its own exactly when no leader of its key was dropped, and it either has
      yet to consult and its rules and grants leave it open at some later time, or
      is about to ask, or follows a leader that was cancelled or still can be. */
  lemma CanAskIff(home: Home, cfg: Q.Settings, limited: set<P.Entry>, book: Book, clock: int, run: seq<Event>, t: nat)
    requires After(home, cfg, Initial(limited, book, clock), run).Some?
    requires var w := After(home, cfg, Initial(limited, book, clock), run).value; t in w.flows && t in w.queue.tasks
    ensures var w := After(home, cfg, Initial(limited, book, clock), run).value;
            CanAsk(home, cfg, w, t) <==> MayAsk(home, cfg, w, t)
  {
    var w := After(home, cfg, Initial(limited, book, clock), run).value;
    TraceIsARun(home, cfg, limited, [], Initial(limited, book, clock), run);
    AskIff(home, cfg, limited, [] + Trace(home, cfg, Initial(limited, book, clock), run), w, t);
  }

  lemma AskIff(home: Home, cfg: Q.Settings, limited: set<P.Entry>, past: seq<P.Event>, w: World, t: nat)
    requires P.After(cfg, limited, past) == Some(w.queue) && t in w.flows && t in w.queue.tasks
    ensures CanAsk(home, cfg, w, t) <==> MayAsk(home, cfg, w, t)
  {
    if more :| AsksIn(home, cfg, w, t, more) {
      AsksOnlyIf(home, cfg, limited, past, w, t, more);
    }
    if MayAsk(home, cfg, w, t) {
      var more: seq<Event>;
      if w.queue.tasks[t].pc.Starting? {
        more := BeginningAsks(home, cfg, limited, past, w, t);
      } else if w.queue.tasks[t].pc.Unlimited? {
        more := ConsultingAsks(home, cfg, limited, past, w, t);
      } else {
        more := SentAsks(home, cfg, limited, past, w, t);
      }
    }
  }

  //--- after an answer ---------------------------------------------------------------------------

  /** What was stored, together with what an outcome writes down, does not decide
      the flow: some part of it is not allowed, and some part is not denied. */
  ghost predicate StaysOpen(text: IpText, globals: seq<Rules>, s: Sandbox, subjects: seq<HostPattern>, outcome: Q.Outcome,
                            until: int, later: Admission, now: int) {
    var address := ToCanonical(later.address);
    && s.mode.Enforce? && IsOpen(later)
    && (exists names, keys :: IsPart(text, later, names, keys)
          && !AllowsAfter(text, globals, s, subjects, outcome, until, address, names, keys, now))
    && (exists names, keys :: IsPart(text, later, names, keys)
          && !DeniesAfter(text, globals, s, subjects, outcome, address, names))
  }

  /** Flow `t` stays open at `now` when flow `u` settles at `n`. */
  ghost predicate IsLeftOpen(home: Home, w: World, u: nat, n: int, t: nat, now: int)
    requires u in w.flows && u in w.queue.tasks && P.PcOf(w.queue, u).Applying? && t in w.flows
  {
    StaysOpen(home.text, w.book.globals, BoxOf(home, w.book, w.queue.tasks[u].entry), w.flows[u].subjects,
              P.PcOf(w.queue, u).outcome, n + home.tempAllow, w.flows[t].admission, now)
  }

  lemma NeverPrompted(text: IpText, admission: Admission, mode: Mode, layers: seq<Rules>, session: Session, now: int)
    requires mode.Open? || !IsOpen(admission)
    ensures !DecideLayered(text.showIp, admission, mode, layers, session, now).Prompt?
  {
  }

  /** A decision on what an outcome leaves behind. */
  function DecidedOn(text: IpText, s: Sandbox, globals: seq<Rules>, admission: Admission, now: int): Decision {
    DecideLayered(text.showIp, admission, s.mode, Layers(text, s.table, globals), s.session, now)
  }

  lemma PromptedWhenOpen(text: IpText, globals: seq<Rules>, s: Sandbox, subjects: seq<HostPattern>, outcome: Q.Outcome,
                         until: int, later: Admission, now: int)
    requires forall q :: q in subjects ==> Printable(text, q)
    ensures DecidedOn(text, Applied(text, s, subjects, outcome, until), globals, later, now).Prompt?
            <==> StaysOpen(text, globals, s, subjects, outcome, until, later, now)
  {
    var after := Applied(text, s, subjects, outcome, until);
    if s.mode.Enforce? && IsOpen(later) {
      LaterFlowIff(text, globals, s, subjects, outcome, until, later, now);
    } else {
      NeverPrompted(text, later, s.mode, Layers(text, after.table, globals), after.session, now);
    }
  }

  lemma OpenIsPrompted(home: Home, before: Book, after: Book, entry: P.Entry, subjects: seq<HostPattern>, outcome: Q.Outcome,
                       until: int, later: Admission, now: int)
    requires forall p :: p in subjects ==> Printable(home.text, p)
    requires BoxOf(home, after, entry) == Applied(home.text, BoxOf(home, before, entry), subjects, outcome, until)
    requires after.globals == before.globals
    ensures Decided(home, after, entry, later, now).Prompt?
            <==> StaysOpen(home.text, before.globals, BoxOf(home, before, entry), subjects, outcome, until, later, now)
  {
    PromptedWhenOpen(home.text, before.globals, BoxOf(home, before, entry), subjects, outcome, until, later, now);
  }

  /** In every reachable world in which a flow settles, whatever it was answered:
      another flow of the registration can still come to ask on its own, with no
      further writes, exactly when no leader of its key was dropped, and it has yet
      to consult and at some later time the answer and what was stored before leave
      it open, or it is about to ask, or it follows a leader that was cancelled or
      still can be. */
  lemma AskedAfterAnswerIff(home: Home, cfg: Q.Settings, limited: set<P.Entry>, book: Book, clock: int, run: seq<Event>,
                            u: nat, n: int, t: nat)
    requires Faithful(home.text) && After(home, cfg, Initial(limited, book, clock), run).Some?
    requires var w := After(home, cfg, Initial(limited, book, clock), run).value;
             && Step(home, cfg, w, Settle(u, n)).Some? && u in w.queue.tasks && t in w.queue.tasks
             && w.queue.tasks[t].entry == w.queue.tasks[u].entry
    ensures var w := After(home, cfg, Initial(limited, book, clock), run).value;
            var w' := Step(home, cfg, w, Settle(u, n)).value;
            && t in w.flows && u in w.flows && P.PcOf(w.queue, u).Applying? && t in w'.queue.tasks
            && (CanAsk(home, cfg, w', t)
                <==> Overlaps.MayLead(cfg, w'.queue, t)
                     && (HasConsulted(w'.queue.tasks[t].pc) || exists now :: now >= n && IsLeftOpen(home, w, u, n, t, now)))
  {
    var w := After(home, cfg, Initial(limited, book, clock), run).value;
    RunKeeps(home, cfg, Initial(limited, book, clock), run);
    var w' := Step(home, cfg, w, Settle(u, n)).value;
    OneStepMore(home, cfg, Initial(limited, book, clock), run, Settle(u, n));
    StepSameAdmission(home, cfg, w, Settle(u, n), t);
    CanAskIff(home, cfg, limited, book, clock, run + [Settle(u, n)], t);
    OpenWhen(home, cfg, w, u, n, t);
  }

  /** `after` is what flow `u` leaves when it settles at `n`. */
  ghost predicate Leaves(home: Home, w: World, u: nat, n: int, after: Book)
    requires u in w.flows && u in w.queue.tasks && P.PcOf(w.queue, u).Applying?
  {
    && after.globals == w.book.globals
    && BoxOf(home, after, w.queue.tasks[u].entry)
       == Applied(home.text, BoxOf(home, w.book, w.queue.tasks[u].entry), w.flows[u].subjects,
                  P.PcOf(w.queue, u).outcome, n + home.tempAllow)
  }

  lemma OpenAt(home: Home, w: World, u: nat, n: int, after: Book, t: nat, now: int)
    requires u in w.flows && u in w.queue.tasks && P.PcOf(w.queue, u).Applying? && t in w.flows
    requires Leaves(home, w, u, n, after) && forall p :: p in w.flows[u].subjects ==> Printable(home.text, p)
    ensures Decided(home, after, w.queue.tasks[u].entry, w.flows[t].admission, now).Prompt?
            <==> IsLeftOpen(home, w, u, n, t, now)
  {
    OpenIsPrompted(home, w.book, after, w.queue.tasks[u].entry, w.flows[u].subjects, P.PcOf(w.queue, u).outcome,
                   n + home.tempAllow, w.flows[t].admission, now);
  }

  lemma OpenWhen(home: Home, cfg: Q.Settings, w: World, u: nat, n: int, t: nat)
    requires Sound(home, w) && Step(home, cfg, w, Settle(u, n)).Some?
    requires u in w.flows && u in w.queue.tasks && P.PcOf(w.queue, u).Applying? && t in w.flows && t in w.queue.tasks
    requires w.queue.tasks[t].entry == w.queue.tasks[u].entry
    requires SameAdmission(w, Step(home, cfg, w, Settle(u, n)).value, t)
    ensures IsUndecided(home, Step(home, cfg, w, Settle(u, n)).value, t)
            <==> exists now :: now >= n && IsLeftOpen(home, w, u, n, t, now)
  {
    var w' := Step(home, cfg, w, Settle(u, n)).value;
    SettleWrites(home, cfg, w, u, n);
    assert Leaves(home, w, u, n, w'.book);
    if IsUndecided(home, w', t) {
      var now :| now >= w'.clock && Decided(home, w'.book, w'.queue.tasks[t].entry, w'.flows[t].admission, now).Prompt?;
      OpenAt(home, w, u, n, w'.book, t, now);
    }
    if now :| now >= n && IsLeftOpen(home, w, u, n, t, now) {
      OpenAt(home, w, u, n, w'.book, t, now);
      assert Decided(home, w'.book, w'.queue.tasks[t].entry, w'.flows[t].admission, now).Prompt?;
    }
  }
}
