/** Flows that nobody is asked about, over runs of the whole broker: which of them
    pass, and why. */
module BrokerVerdicts {
  import opened Answers
  import opened Decision
  import opened HardDenies
  import opened HostPatterns
  import opened Net
  import opened Registry
  import opened BrokerRuns
  import opened BrokerAnswers
  import opened RuleEdits
  import Admissions
  import P = ApprovalProtocol
  import Q = ApprovalQueue
  import Runs = ApprovalRuns

  //--- arrivals ----------------------------------------------------------------------------------

  /** The step brings flow `t` in, for this registration and with this admission. */
  ghost predicate BringsIn(e: Event, t: nat, entry: P.Entry, admission: Admission) {
    && e.Arrive? && e.task == t && e.entry == entry
    && admission.address == ToCanonical(e.address) && admission.port == e.port && !admission.malformed
    && admission.candidates == match e.claimed case Some(name) => [[name]] case None => e.known
  }

  ghost predicate EverBrought(run: seq<Event>, t: nat, entry: P.Entry, admission: Admission) {
    exists i :: 0 <= i < |run| && BringsIn(run[i], t, entry, admission)
  }

  lemma ArrivesHere(home: Home, cfg: Q.Settings, w: World, e: Event, t: nat)
    requires t !in w.queue.tasks && Step(home, cfg, w, e).Some? && t in Step(home, cfg, w, e).value.queue.tasks
    ensures var w' := Step(home, cfg, w, e).value;
            && e.Arrive? && t in w'.flows && BringsIn(e, t, w'.queue.tasks[t].entry, w'.flows[t].admission)
            && w'.queue.tasks[t].pc == P.Starting
  {
    if !e.Arrive? && !e.Edit? { Runs.StepSameFlows(cfg, w.queue, Seen(home, w, e)[0]); }
  }

  /** Every flow was brought in by a step of the run: it goes by the name that it
      claimed then, or else by what the bindings said then. */
  lemma {:induction false} FlowsAreBroughtIn(home: Home, cfg: Q.Settings, limited: set<P.Entry>, book: Book, clock: int,
                                             run: seq<Event>, t: nat)
    requires After(home, cfg, Initial(limited, book, clock), run).Some?
    requires t in After(home, cfg, Initial(limited, book, clock), run).value.queue.tasks
    ensures var w := After(home, cfg, Initial(limited, book, clock), run).value;
            t in w.flows && EverBrought(run, t, w.queue.tasks[t].entry, w.flows[t].admission)
  {
    var n := |run| - 1;
    var before := After(home, cfg, Initial(limited, book, clock), run[..n]).value;
    if t in before.queue.tasks {
      FlowsAreBroughtIn(home, cfg, limited, book, clock, run[..n], t);
      StepSameAdmission(home, cfg, before, run[n], t);
      BroughtEarlier(run, t, before.queue.tasks[t].entry, before.flows[t].admission);
    } else {
      ArrivesHere(home, cfg, before, run[n], t);
    }
  }

  lemma BroughtEarlier(run: seq<Event>, t: nat, entry: P.Entry, admission: Admission)
    requires run != [] && EverBrought(run[..|run| - 1], t, entry, admission)
    ensures EverBrought(run, t, entry, admission)
  {
    var i :| 0 <= i < |run| - 1 && BringsIn(run[..|run| - 1][i], t, entry, admission);
    assert run[i] == run[..|run| - 1][i];
  }

  //--- verdicts ----------------------------------------------------------------------------------

  /** The step lets flow `t` pass (refuses it) without asking: it consults while
      what is stored allows (denies) it, or checks while it is limited. */
  ghost predicate DecidesIn(home: Home, w: World, e: Event, t: nat, allowed: bool) {
    && t in w.flows && t in w.queue.tasks
    && var entry, admission := w.queue.tasks[t].entry, w.flows[t].admission;
       || (e.Consult? && e.task == t
           && if allowed then Admissions.StoredAllows(home.text, BoxOf(home, w.book, entry), w.book.globals, admission, e.now)
              else Admissions.StoredDenies(home.text, BoxOf(home, w.book, entry), w.book.globals, admission, e.now))
       || (!allowed && e == Queue(P.CheckLimited(t)) && entry in w.queue.limited)
  }

  ghost predicate DecidesNext(home: Home, cfg: Q.Settings, w: World, run: seq<Event>, e: Event, t: nat, allowed: bool) {
    After(home, cfg, w, run).Some? && DecidesIn(home, After(home, cfg, w, run).value, e, t, allowed)
  }

  ghost predicate DecidesAt(home: Home, cfg: Q.Settings, w: World, run: seq<Event>, i: nat, t: nat, allowed: bool) {
    i < |run| && DecidesNext(home, cfg, w, run[..i], run[i], t, allowed)
  }

  ghost predicate EverDecides(home: Home, cfg: Q.Settings, w: World, run: seq<Event>, t: nat, allowed: bool) {
    exists i: nat :: DecidesAt(home, cfg, w, run, i, t, allowed)
  }

  lemma DecidesEarlier(home: Home, cfg: Q.Settings, w: World, run: seq<Event>, i: nat, t: nat, allowed: bool)
    requires i < |run| - 1
    ensures DecidesAt(home, cfg, w, run, i, t, allowed) <==> DecidesAt(home, cfg, w, run[..|run| - 1], i, t, allowed)
  {
    assert run[..|run| - 1][..i] == run[..i];
  }

  lemma EverDecidesShifts(home: Home, cfg: Q.Settings, w: World, run: seq<Event>, t: nat, allowed: bool)
    requires run != []
    ensures var n := |run| - 1;
            EverDecides(home, cfg, w, run, t, allowed)
            <==> EverDecides(home, cfg, w, run[..n], t, allowed) || DecidesNext(home, cfg, w, run[..n], run[n], t, allowed)
  {
    var n := |run| - 1;
    if i: nat :| DecidesAt(home, cfg, w, run, i, t, allowed) {
      if i < n { DecidesEarlier(home, cfg, w, run, i, t, allowed); }
    }
    if i: nat :| DecidesAt(home, cfg, w, run[..n], i, t, allowed) {
      DecidesEarlier(home, cfg, w, run, i, t, allowed);
    }
    if DecidesNext(home, cfg, w, run[..n], run[n], t, allowed) {
      assert DecidesAt(home, cfg, w, run, n, t, allowed);
    }
  }

  /** The flow returned without having been asked about. */
  predicate Unasked(s: P.State, t: nat, allowed: bool) {
    P.PcOf(s, t) == P.Returned(allowed, None)
  }

  lemma OwnStepReturns(cfg: Q.Settings, s: P.State, e: P.Event, allowed: bool)
    requires P.IsFlowEvent(e) && P.FlowStep(cfg, s, e).Some?
    ensures Unasked(P.FlowStep(cfg, s, e).value, e.task, allowed)
            <==> || (e.Consult? && e.verdict == if allowed then P.StoredAllow else P.StoredDeny)
                 || (!allowed && e.CheckLimited? && s.tasks[e.task].entry in s.limited)
    ensures !Unasked(s, e.task, allowed)
  {
  }

  lemma QueueReturns(cfg: Q.Settings, s: P.State, e: P.Event, t: nat, allowed: bool)
    requires P.Next(cfg, s, e).Some?
    ensures Unasked(P.Next(cfg, s, e).value, t, allowed)
            <==> || Unasked(s, t, allowed)
                 || (e.Consult? && e.task == t && e.verdict == if allowed then P.StoredAllow else P.StoredDeny)
                 || (!allowed && e == P.CheckLimited(t) && t in s.tasks && s.tasks[t].entry in s.limited)
  {
    if P.IsFlowEvent(e) && e.task == t {
      OwnStepReturns(cfg, s, e, allowed);
    } else {
      Runs.OtherStepsStay(cfg, s, e, t);
    }
  }

  lemma StepReturns(home: Home, cfg: Q.Settings, w: World, e: Event, t: nat, allowed: bool)
    requires Step(home, cfg, w, e).Some? && (t in w.queue.tasks ==> t in w.flows)
    ensures Unasked(Step(home, cfg, w, e).value.queue, t, allowed)
            <==> Unasked(w.queue, t, allowed) || DecidesIn(home, w, e, t, allowed)
  {
    if !e.Edit? {
      QueueReturns(cfg, w.queue, Seen(home, w, e)[0], t, allowed);
    }
    if e.Consult? && e.task == t {
      var s := BoxOf(home, w.book, w.queue.tasks[t].entry);
      Admissions.DecisionIs(home.text, s, w.book.globals, w.flows[t].admission, e.now);
    }
  }

  /** Over every run, a flow returned true unasked exactly when it consulted at a
      step at which what was stored allowed it, and false unasked exactly when it
      was checked under its limit or consulted while what was stored denied it. */
  lemma {:induction false} UnaskedIff(home: Home, cfg: Q.Settings, limited: set<P.Entry>, book: Book, clock: int,
                                      run: seq<Event>, t: nat, allowed: bool)
    requires After(home, cfg, Initial(limited, book, clock), run).Some?
    ensures var w := Initial(limited, book, clock);
            Unasked(After(home, cfg, w, run).value.queue, t, allowed) <==> EverDecides(home, cfg, w, run, t, allowed)
  {
    if run != [] {
      var n := |run| - 1;
      var w := Initial(limited, book, clock);
      UnaskedIff(home, cfg, limited, book, clock, run[..n], t, allowed);
      var before := After(home, cfg, w, run[..n]).value;
      if t in before.queue.tasks { FlowsAreBroughtIn(home, cfg, limited, book, clock, run[..n], t); }
      StepReturns(home, cfg, before, run[n], t, allowed);
      EverDecidesShifts(home, cfg, w, run, t, allowed);
    }
  }

  //--- who shares what ---------------------------------------------------------------------------

  /** Flows share a prompt exactly when they belong to sandboxes of one name, go to
      the same port, and share the prompt's subject. */
  lemma SharedPromptIff(home: Home, x: P.Entry, a: Admission, y: P.Entry, b: Admission)
    requires Faithful(home.text) && forall ip :: ',' !in home.text.showIp(ip)
    requires WellNamed(a) && WellNamed(b)
    ensures KeyOf(home, x, a) == KeyOf(home, y, b) <==>
              && x.name == y.name && a.port == b.port
              && if a.candidates == [] && b.candidates == [] then a.address == b.address
                 else if a.candidates != [] && b.candidates != [] then QueryNames(a.candidates) == QueryNames(b.candidates)
                 else if a.candidates == [] then QueryNames(b.candidates) == [home.text.showIp(a.address)]
                 else QueryNames(a.candidates) == [home.text.showIp(b.address)]
  {
    SharedSubjectIff(home.text, a, b);
  }

  /** Settling a flow changes, for any other registration, at most the kitchen file,
      and that only when they share it. */
  lemma OthersKeepTheirs(home: Home, cfg: Q.Settings, w: World, u: nat, now: int, other: P.Entry)
    requires Step(home, cfg, w, Settle(u, now)).Some? && u in w.queue.tasks && other != w.queue.tasks[u].entry
    ensures var entry := w.queue.tasks[u].entry;
            var w' := Step(home, cfg, w, Settle(u, now)).value;
            BoxOf(home, w'.book, other)
            == BoxOf(home, w.book, other).(table :=
                 if home.file(other) == home.file(entry) then BoxOf(home, w'.book, entry).table
                 else BoxOf(home, w.book, other).table)
  {
  }

  /** A registration stands in its own mode, with its own grants, and with the rules
      of its kitchen file. */
  lemma BoxIs(home: Home, book: Book, entry: P.Entry)
    ensures var s := BoxOf(home, book, entry);
            && (entry in book.modes ==> s.mode == book.modes[entry])
            && (forall k, t :: s.session.Allows(k, t) <==> entry in book.sessions && book.sessions[entry].Allows(k, t))
            && (forall list :: ValuesOf(s.table, list) ==
                  if home.file(entry) in book.tables then ValuesOf(book.tables[home.file(entry)], list) else [])
  {
  }
}
