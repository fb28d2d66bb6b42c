/** Where outcomes come from: followers repeat their leader, and only a human
    answer to the flow itself, to its leader, or a stored rule lets a flow
    through. */
module ApprovalOutcomes {
  import opened Net
  import opened ApprovalQueue
  import opened ApprovalProtocol
  import Coalescing = ApprovalCoalescing
  import Prompts = ApprovalPrompts
  import Runs = ApprovalRuns

  /** What a run did so far that later outcomes rest on. */
  datatype Log = Log(
    given: set<(nat, Outcome)>,   // human answers, and the waiting flows they were given to
    passed: set<nat>,             // flows whose sandbox was not limited at their check
    stored: set<nat>              // flows that the stored rules allow
  )

  /** The human answer that an event gives to a flow that still waits for it. */
  function Given(s: State, e: Event): set<(nat, Outcome)> {
    match e
    case AnswerDialog(t, outcome) => if t in s.tasks && IsAnswer(outcome) then {(t, outcome)} else {}
    case Decide(id, answer) => if Reachable(s, id) then {(s.queue.pending[id].task, answer)} else {}
    case _ => {}
  }

  function Passed(s: State, e: Event): set<nat> {
    if e.CheckLimited? && e.task in s.tasks && s.tasks[e.task].entry !in s.limited then {e.task} else {}
  }

  function Stored(e: Event): set<nat> {
    if e.Consult? && e.verdict.StoredAllow? then {e.task} else {}
  }

  function Extend(log: Log, s: State, e: Event): Log {
    Log(log.given + Given(s, e), log.passed + Passed(s, e), log.stored + Stored(e))
  }

  function LogOf(cfg: Settings, limited: set<Entry>, run: seq<Event>): Log
    requires After(cfg, limited, run).Some?
  {
    if run == [] then Log({}, {}, {})
    else
      var n := |run| - 1;
      Extend(LogOf(cfg, limited, run[..n]), After(cfg, limited, run[..n]).value, run[n])
  }

  /** The outcome of a flow's own prompt; a follower has none. */
  function OwnOutcome(task: Task): Option<Outcome> {
    match task.pc
    case Answered(_, _, outcome) => Some(outcome)
    case Releasing(_, outcome) => Some(outcome)
    case Publishing(_, outcome) => Some(outcome)
    case Applying(outcome) => if task.led then Some(outcome) else None
    case Returned(_, asked) => if task.led then asked else None
    case _ => None
  }

  ghost predicate FlowOk(s: State, log: Log, t: nat)
    requires t in s.tasks
  {
    var task := s.tasks[t];
    && (OwnOutcome(task).Some? && IsAnswer(OwnOutcome(task).value) ==> (t, OwnOutcome(task).value) in log.given)
    && (task.pc.Waiting? && task.pc.id in s.answers && IsAnswer(s.answers[task.pc.id]) ==>
          (t, s.answers[task.pc.id]) in log.given)
    && (task.pc.Starting? || task.pc == Returned(false, None) || t in log.passed)
    && (task.pc.Returned? && task.pc.asked.None? && task.pc.allowed ==> t in log.stored)
    && (task.pc.Returned? && task.pc.asked.Some? ==>
          (task.pc.allowed <==> task.pc.asked.value.Allow? || task.pc.asked.value.Temp?))
  }

  ghost predicate PublishedOk(s: State, log: Log, c: nat)
    requires c < |s.channels|
  {
    s.channels[c].value.Some? && IsAnswer(s.channels[c].value.value) ==>
      (s.channels[c].owner, s.channels[c].value.value) in log.given
  }

  ghost predicate Justified(s: State, log: Log) {
    && (forall t :: t in s.tasks ==> FlowOk(s, log, t))
    && (forall c :: 0 <= c < |s.channels| ==> PublishedOk(s, log, c))
  }

  /** A flow that asked without ever leading returns its own cancellation, or
      the outcome that a leader it followed published. */
  ghost predicate Agrees(s: State, t: nat)
    requires t in s.tasks
  {
    var task := s.tasks[t];
    var part := Coalescing.PartOf(task.pc);
    part.Got? && !task.led ==>
      || (part.outcome.Cancelled? && task.cancelled)
      || (!part.outcome.Cancelled? && Heard(s, task.followed, part.outcome))
  }

  ghost predicate Heard(s: State, followed: set<nat>, outcome: Outcome) {
    exists c :: c in followed && c < |s.channels| && s.channels[c].value == Some(outcome)
  }

  ghost predicate AllAgree(s: State) {
    forall t :: t in s.tasks ==> Agrees(s, t)
  }

  //--- steps: justification ----------------------------------------------------------------------

  /** Flow `t` moved; the others, their channels' values and their answers did not. */
  lemma MoveJustified(s: State, s': State, log: Log, log': Log, t: nat)
    requires Justified(s, log) && t in s'.tasks
    requires log.given <= log'.given && log.passed <= log'.passed && log.stored <= log'.stored
    requires s'.tasks.Keys == s.tasks.Keys + {t}
    requires forall u :: u in s.tasks && u != t ==> s'.tasks[u] == s.tasks[u]
    requires s'.answers == s.answers && FlowOk(s', log', t)
    requires forall c :: 0 <= c < |s'.channels| ==>
               (c < |s.channels| && s'.channels[c] == s.channels[c]) || PublishedOk(s', log', c)
    ensures Justified(s', log')
  {
    forall u | u in s'.tasks ensures FlowOk(s', log', u) {
      if u != t { assert FlowOk(s, log, u); }
    }
    forall c | 0 <= c < |s'.channels| ensures PublishedOk(s', log', c) {
      if c < |s.channels| { assert PublishedOk(s, log, c); }
    }
  }

  lemma WaitJustified(s: State, log: Log, e: Event)
    requires Justified(s, log) && IsFlowEvent(e) && WaitStep(s, e).Some?
    ensures Justified(WaitStep(s, e).value, Extend(log, s, e))
  {
    assert FlowOk(s, log, e.task);
    MoveJustified(s, WaitStep(s, e).value, log, Extend(log, s, e), e.task);
  }

  lemma HearJustified(s: State, log: Log, e: Event)
    requires Justified(s, log) && Coalescing.Coalesced(s) && e.Hear? && HearStep(s, e.task).Some?
    ensures Justified(HearStep(s, e.task).value, Extend(log, s, e))
  {
    FollowersNeverLed(s, e.task);
    HearingJustified(s, log, e);
    MoveJustified(s, HearStep(s, e.task).value, log, Extend(log, s, e), e.task);
  }

  lemma HearingJustified(s: State, log: Log, e: Event)
    requires Justified(s, log) && e.Hear? && HearStep(s, e.task).Some? && !s.tasks[e.task].led
    ensures FlowOk(HearStep(s, e.task).value, Extend(log, s, e), e.task)
  {
    assert FlowOk(s, log, e.task);
  }

  lemma FollowersNeverLed(s: State, t: nat)
    requires Coalescing.Coalesced(s) && PcOf(s, t).Following? && t in s.tasks
    ensures !s.tasks[t].led
  {
    Coalescing.OwnFacts(s, t);
  }

  lemma ChannelIsOwn(s: State, t: nat)
    requires Coalescing.Coalesced(s) && PcOf(s, t).Publishing? && t in s.tasks
    ensures s.tasks[t].pc.channel < |s.channels| && s.channels[s.tasks[t].pc.channel].owner == t
  {
    Coalescing.OwnFacts(s, t);
  }

  lemma PublishJustified(s: State, log: Log, e: Event)
    requires Justified(s, log) && Coalescing.Coalesced(s) && e.Publish? && PublishStep(s, e.task).Some?
    ensures Justified(PublishStep(s, e.task).value, Extend(log, s, e))
  {
    ChannelIsOwn(s, e.task);
    PublishedJustified(s, log, e);
    MoveJustified(s, PublishStep(s, e.task).value, log, Extend(log, s, e), e.task);
  }

  /** What the publishing flow returns and what it published were given to it. */
  lemma PublishedJustified(s: State, log: Log, e: Event)
    requires Justified(s, log) && e.Publish? && PublishStep(s, e.task).Some?
    requires var c := s.tasks[e.task].pc.channel; c < |s.channels| && s.channels[c].owner == e.task
    ensures var s' := PublishStep(s, e.task).value;
            && FlowOk(s', Extend(log, s, e), e.task)
            && forall c :: 0 <= c < |s'.channels| ==>
                 (c < |s.channels| && s'.channels[c] == s.channels[c]) || PublishedOk(s', Extend(log, s, e), c)
  {
    assert FlowOk(s, log, e.task);
  }

  lemma EarlyJustified(cfg: Settings, s: State, log: Log, e: Event)
    requires e.CheckLimited? || e.Consult?
    requires Justified(s, log) && FlowStep(cfg, s, e).Some?
    ensures Justified(FlowStep(cfg, s, e).value, Extend(log, s, e))
  {
    assert FlowOk(s, log, e.task);
    MoveJustified(s, FlowStep(cfg, s, e).value, log, Extend(log, s, e), e.task);
  }

  lemma EnterJustified(s: State, log: Log, e: Event)
    requires Justified(s, log) && e.Enter? && PcOf(s, e.task).Asking?
    ensures Justified(EnterQueue(s, e.task), Extend(log, s, e))
  {
    EnteredFlowOk(s, log, e.task);
    MoveJustified(s, EnterQueue(s, e.task), log, Extend(log, s, e), e.task);
  }

  lemma EnteredFlowOk(s: State, log: Log, t: nat)
    requires Justified(s, log) && PcOf(s, t).Asking?
    ensures FlowOk(EnterQueue(s, t), log, t)
  {
    assert FlowOk(s, log, t);
  }

  lemma LeaderJustified(cfg: Settings, s: State, log: Log, e: Event)
    requires e.CountPrompt? || e.Open? || e.Unlist? || e.Release?
    requires Justified(s, log) && FlowStep(cfg, s, e).Some?
    ensures Justified(FlowStep(cfg, s, e).value, Extend(log, s, e))
  {
    LeaderFlowOk(cfg, s, log, e);
    LeaderIsMove(cfg, s, e);
    MoveJustified(s, FlowStep(cfg, s, e).value, log, Extend(log, s, e), e.task);
  }

  lemma LeaderIsMove(cfg: Settings, s: State, e: Event)
    requires (e.CountPrompt? || e.Open? || e.Unlist? || e.Release?) && FlowStep(cfg, s, e).Some?
    ensures IsMove(s, FlowStep(cfg, s, e).value, e.task)
  {
  }

  lemma LeaderFlowOk(cfg: Settings, s: State, log: Log, e: Event)
    requires e.CountPrompt? || e.Open? || e.Unlist? || e.Release?
    requires Justified(s, log) && FlowStep(cfg, s, e).Some?
    ensures e.task in s.tasks && FlowOk(FlowStep(cfg, s, e).value, Extend(log, s, e), e.task)
  {
    assert FlowOk(s, log, e.task);
  }

  /** A freshly listed id has no answer yet. */
  lemma ListJustified(cfg: Settings, s: State, log: Log, e: Event)
    requires Justified(s, log) && Prompts.Prompted(s) && e.List? && ListStep(cfg, s, e.task).Some?
    ensures Justified(ListStep(cfg, s, e.task).value, Extend(log, s, e))
  {
    assert FlowOk(s, log, e.task) && Prompts.PromptOk(s, e.task);
    MoveJustified(s, ListStep(cfg, s, e.task).value, log, Extend(log, s, e), e.task);
  }

  lemma DialogJustified(cfg: Settings, s: State, log: Log, e: Event)
    requires e.TakeScreen? || e.ShowDialog?
    requires Justified(s, log) && FlowStep(cfg, s, e).Some?
    ensures Justified(FlowStep(cfg, s, e).value, Extend(log, s, e))
  {
    assert FlowOk(s, log, e.task);
    MoveJustified(s, FlowStep(cfg, s, e).value, log, Extend(log, s, e), e.task);
  }

  lemma DropJustified(s: State, log: Log, e: Event)
    requires Justified(s, log) && e.Drop? && DropStep(s, e.task).Some?
    ensures Justified(DropStep(s, e.task).value, Extend(log, s, e))
  {
    assert FlowOk(s, log, e.task);
    MoveJustified(s, DropStep(s, e.task).value, log, Extend(log, s, e), e.task);
  }

  lemma LateJustified(cfg: Settings, s: State, log: Log, e: Event)
    requires e.HearClosed? || e.Settle? || (e.ObserveCancel? && PcOf(s, e.task).Following?)
    requires Justified(s, log) && FlowStep(cfg, s, e).Some?
    ensures Justified(FlowStep(cfg, s, e).value, Extend(log, s, e))
  {
    LateFlowOk(cfg, s, log, e);
    LateIsMove(cfg, s, e);
    MoveJustified(s, FlowStep(cfg, s, e).value, log, Extend(log, s, e), e.task);
  }

  /** Only flow `t` moved, and nothing was published or answered. */
  ghost predicate IsMove(s: State, s': State, t: nat) {
    && t in s'.tasks && s'.tasks.Keys == s.tasks.Keys + {t}
    && (forall u :: u in s.tasks && u != t ==> s'.tasks[u] == s.tasks[u])
    && s'.answers == s.answers && s'.channels == s.channels
  }

  lemma LateIsMove(cfg: Settings, s: State, e: Event)
    requires e.HearClosed? || e.Settle? || (e.ObserveCancel? && PcOf(s, e.task).Following?)
    requires FlowStep(cfg, s, e).Some?
    ensures IsMove(s, FlowStep(cfg, s, e).value, e.task)
  {
  }

  lemma LateFlowOk(cfg: Settings, s: State, log: Log, e: Event)
    requires e.HearClosed? || e.Settle? || (e.ObserveCancel? && PcOf(s, e.task).Following?)
    requires Justified(s, log) && FlowStep(cfg, s, e).Some?
    ensures e.task in s.tasks && FlowOk(FlowStep(cfg, s, e).value, Extend(log, s, e), e.task)
  {
    assert FlowOk(s, log, e.task);
  }

  lemma FlowStepJustified(cfg: Settings, s: State, log: Log, e: Event)
    requires Justified(s, log) && Coalescing.Coalesced(s) && Prompts.Prompted(s)
    requires IsFlowEvent(e) && FlowStep(cfg, s, e).Some?
    ensures Justified(FlowStep(cfg, s, e).value, Extend(log, s, e))
  {
    if e.CheckLimited? || e.Consult? {
      EarlyJustified(cfg, s, log, e);
    } else if e.Enter? {
      EnterJustified(s, log, e);
    } else if e.TakeScreen? || e.ShowDialog? {
      DialogJustified(cfg, s, log, e);
    } else if e.Drop? {
      DropJustified(s, log, e);
    } else if e.CountPrompt? || e.Open? || e.Unlist? || e.Release? {
      LeaderJustified(cfg, s, log, e);
    } else if e.List? {
      ListJustified(cfg, s, log, e);
    } else if e.Hear? {
      HearJustified(s, log, e);
    } else if e.Publish? {
      PublishJustified(s, log, e);
    } else if e.HearClosed? || e.Settle? || (e.ObserveCancel? && PcOf(s, e.task).Following?) {
      LateJustified(cfg, s, log, e);
    } else {
      WaitJustified(s, log, e);
    }
  }

  /** An answer for a reachable id is given to the one flow that waits on it. */
  lemma DecideJustified(s: State, log: Log, e: Event)
    requires Justified(s, log) && Prompts.Prompted(s) && e.Decide? && IsAnswer(e.answer)
    ensures Justified(DecideId(s, e.id, e.answer), Extend(log, s, e))
  {
    var s' := DecideId(s, e.id, e.answer);
    var log' := Extend(log, s, e);
    forall u | u in s'.tasks ensures FlowOk(s', log', u) {
      assert FlowOk(s, log, u) && Prompts.PromptOk(s, u);
      if Reachable(s, e.id) && s.tasks[u].pc.Waiting? && s.tasks[u].pc.id == e.id {
        var holder := s.queue.pending[e.id].task;
        assert Prompts.PromptOf(s.tasks[u].pc) == Prompts.PromptOf(s.tasks[holder].pc);
        assert u == holder;
      }
    }
    forall c | 0 <= c < |s'.channels| ensures PublishedOk(s', log', c) {
      assert PublishedOk(s, log, c);
    }
  }

  lemma CancelFlowOk(s: State, log: Log, sandbox: string, u: nat)
    requires Justified(s, log) && u in s.tasks
    ensures FlowOk(CancelRequests(s, sandbox), log, u)
  {
    assert FlowOk(s, log, u);
  }

  lemma OutsideFlowOk(cfg: Settings, s: State, log: Log, e: Event, u: nat)
    requires Justified(s, log) && !IsFlowEvent(e) && !e.Decide? && Next(cfg, s, e).Some?
    requires u in Next(cfg, s, e).value.tasks
    ensures FlowOk(Next(cfg, s, e).value, Extend(log, s, e), u)
  {
    if e.CancelSandbox? {
      CancelFlowOk(s, log, e.sandbox, u);
    } else if u in s.tasks {
      OutsideLeavesAlone(cfg, s, e, u);
      SameFlowOk(s, Next(cfg, s, e).value, log, Extend(log, s, e), u);
    } else {
      BegunFlowOk(cfg, s, log, e, u);
    }
  }

  lemma OutsideLeavesAlone(cfg: Settings, s: State, e: Event, u: nat)
    requires !IsFlowEvent(e) && !e.Decide? && !e.CancelSandbox? && Next(cfg, s, e).Some? && u in s.tasks
    ensures var s' := Next(cfg, s, e).value;
            && s'.answers == s.answers && u in s'.tasks
            && s'.tasks[u] == s.tasks[u].(cancelled := s'.tasks[u].cancelled)
  {
  }

  lemma SameFlowOk(s: State, s': State, log: Log, log': Log, u: nat)
    requires Justified(s, log) && u in s.tasks && u in s'.tasks
    requires s'.answers == s.answers && s'.tasks[u] == s.tasks[u].(cancelled := s'.tasks[u].cancelled)
    requires log.given <= log'.given && log.passed <= log'.passed && log.stored <= log'.stored
    ensures FlowOk(s', log', u)
  {
    assert FlowOk(s, log, u);
  }

  lemma BegunFlowOk(cfg: Settings, s: State, log: Log, e: Event, u: nat)
    requires !IsFlowEvent(e) && Next(cfg, s, e).Some? && u !in s.tasks && u in Next(cfg, s, e).value.tasks
    ensures FlowOk(Next(cfg, s, e).value, Extend(log, s, e), u)
  {
  }

  lemma OutsideJustified(cfg: Settings, s: State, log: Log, e: Event)
    requires Justified(s, log) && !IsFlowEvent(e) && !e.Decide? && Next(cfg, s, e).Some?
    ensures Justified(Next(cfg, s, e).value, Extend(log, s, e))
  {
    var s' := Next(cfg, s, e).value;
    var log' := Extend(log, s, e);
    forall u | u in s'.tasks ensures FlowOk(s', log', u) {
      OutsideFlowOk(cfg, s, log, e, u);
    }
    forall c | 0 <= c < |s'.channels| ensures PublishedOk(s', log', c) {
      assert PublishedOk(s, log, c);
    }
  }

  lemma StepJustified(cfg: Settings, s: State, log: Log, e: Event)
    requires Justified(s, log) && Coalescing.Coalesced(s) && Prompts.Prompted(s) && Next(cfg, s, e).Some?
    ensures Justified(Next(cfg, s, e).value, Extend(log, s, e))
  {
    if e.Decide? {
      DecideJustified(s, log, e);
    } else if IsFlowEvent(e) {
      FlowStepJustified(cfg, s, log, e);
    } else {
      OutsideJustified(cfg, s, log, e);
    }
  }

  lemma {:induction false} RunJustified(cfg: Settings, limited: set<Entry>, run: seq<Event>)
    requires After(cfg, limited, run).Some?
    ensures Justified(After(cfg, limited, run).value, LogOf(cfg, limited, run))
  {
    if run != [] {
      var n := |run| - 1;
      RunJustified(cfg, limited, run[..n]);
      Coalescing.RunKeeps(cfg, limited, run[..n]);
      Prompts.RunKeeps(cfg, limited, run[..n]);
      StepJustified(cfg, After(cfg, limited, run[..n]).value, LogOf(cfg, limited, run[..n]), run[n]);
    }
  }

  //--- steps: agreement --------------------------------------------------------------------------

  ghost predicate ValuesStay(s: State, s': State) {
    && |s.channels| <= |s'.channels|
    && forall c :: 0 <= c < |s.channels| && s.channels[c].value.Some? ==> s'.channels[c] == s.channels[c]
  }

  lemma HeardStays(s: State, s': State, followed: set<nat>, outcome: Outcome)
    requires ValuesStay(s, s') && Heard(s, followed, outcome)
    ensures Heard(s', followed, outcome)
  {
    var c :| c in followed && c < |s.channels| && s.channels[c].value == Some(outcome);
    assert s'.channels[c].value == Some(outcome);
  }

  lemma MoveAgrees(s: State, s': State, t: nat)
    requires AllAgree(s) && ValuesStay(s, s')
    requires s'.tasks.Keys == s.tasks.Keys + {t} && Agrees(s', t)
    requires forall u :: u in s.tasks && u != t ==> s'.tasks[u] == s.tasks[u]
    ensures AllAgree(s')
  {
    forall u | u in s'.tasks ensures Agrees(s', u) {
      if u != t {
        assert Agrees(s, u);
        var outcome := Coalescing.PartOf(s.tasks[u].pc);
        if outcome.Got? && Heard(s, s.tasks[u].followed, outcome.outcome) {
          HeardStays(s, s', s.tasks[u].followed, outcome.outcome);
        }
      }
    }
  }

  lemma HearAgrees(s: State, t: nat)
    requires AllAgree(s) && Coalescing.Coalesced(s) && HearStep(s, t).Some?
    ensures AllAgree(HearStep(s, t).value)
  {
    HeardAgrees(s, t);
    MoveAgrees(s, HearStep(s, t).value, t);
  }

  lemma HeardAgrees(s: State, t: nat)
    requires Coalescing.Coalesced(s) && HearStep(s, t).Some?
    ensures Agrees(HearStep(s, t).value, t)
  {
    var s' := HearStep(s, t).value;
    Coalescing.OwnFacts(s, t);
    var c := s.tasks[t].pc.channel;
    assert s'.tasks[t].pc.Applying? ==>
             c in s'.tasks[t].followed && s'.channels[c].value == Some(s'.tasks[t].pc.outcome);
  }

  lemma PublishAgrees(s: State, t: nat)
    requires AllAgree(s) && Coalescing.Coalesced(s) && PublishStep(s, t).Some?
    ensures AllAgree(PublishStep(s, t).value)
  {
    Coalescing.OwnFacts(s, t);
    MoveAgrees(s, PublishStep(s, t).value, t);
  }

  lemma SettleAgrees(s: State, t: nat)
    requires AllAgree(s) && SettleStep(s, t).Some?
    ensures AllAgree(SettleStep(s, t).value)
  {
    var s' := SettleStep(s, t).value;
    assert Agrees(s, t);
    var outcome := s.tasks[t].pc.outcome;
    if Heard(s, s.tasks[t].followed, outcome) {
      HeardStays(s, s', s.tasks[t].followed, outcome);
    }
    MoveAgrees(s, s', t);
  }

  lemma QuietAgrees(cfg: Settings, s: State, e: Event)
    requires AllAgree(s) && IsFlowEvent(e) && FlowStep(cfg, s, e).Some? && !PcOf(s, e.task).Following?
    requires !e.Enter? && !e.Release? && !e.Publish? && !e.Drop? && !e.Settle? && !e.Hear? && !e.HearClosed?
    ensures AllAgree(FlowStep(cfg, s, e).value)
  {
    var s' := FlowStep(cfg, s, e).value;
    Coalescing.QuietStepStays(cfg, s, e);
    assert Agrees(s, e.task);
    var part := Coalescing.PartOf(s.tasks[e.task].pc);
    if part.Got? && Heard(s, s.tasks[e.task].followed, part.outcome) {
      HeardStays(s, s', s.tasks[e.task].followed, part.outcome);
    }
    MoveAgrees(s, s', e.task);
  }

  lemma OtherAgrees(cfg: Settings, s: State, e: Event)
    requires AllAgree(s)
    requires e.Enter? || e.Release? || e.Drop? || e.HearClosed? || (e.ObserveCancel? && PcOf(s, e.task).Following?)
    requires FlowStep(cfg, s, e).Some?
    ensures AllAgree(FlowStep(cfg, s, e).value)
  {
    var s' := FlowStep(cfg, s, e).value;
    Runs.StepsAlone(cfg, s, e);
    Runs.FlowStepSameFlows(cfg, s, e);
    if e.Enter? { EnteredAgrees(s, e.task); } else { OtherMoveAgrees(cfg, s, e); }
    MoveAgrees(s, s', e.task);
  }

  lemma EnteredAgrees(s: State, t: nat)
    requires PcOf(s, t).Asking? && t in s.tasks
    ensures ValuesStay(s, EnterQueue(s, t)) && Agrees(EnterQueue(s, t), t)
  {
  }

  lemma OtherMoveAgrees(cfg: Settings, s: State, e: Event)
    requires e.Release? || e.Drop? || e.HearClosed? || (e.ObserveCancel? && PcOf(s, e.task).Following?)
    requires FlowStep(cfg, s, e).Some?
    ensures ValuesStay(s, FlowStep(cfg, s, e).value) && e.task in s.tasks && Agrees(FlowStep(cfg, s, e).value, e.task)
  {
  }

  lemma OutsideAgrees(cfg: Settings, s: State, e: Event)
    requires AllAgree(s) && !IsFlowEvent(e) && Next(cfg, s, e).Some?
    ensures AllAgree(Next(cfg, s, e).value)
  {
    var s' := Next(cfg, s, e).value;
    forall u | u in s'.tasks ensures Agrees(s', u) {
      if u in s.tasks {
        assert Agrees(s, u);
        var part := Coalescing.PartOf(s.tasks[u].pc);
        if part.Got? && Heard(s, s.tasks[u].followed, part.outcome) {
          HeardStays(s, s', s.tasks[u].followed, part.outcome);
        }
      }
    }
  }

  lemma StepAgrees(cfg: Settings, s: State, e: Event)
    requires AllAgree(s) && Coalescing.Coalesced(s) && Next(cfg, s, e).Some?
    ensures AllAgree(Next(cfg, s, e).value)
  {
    if !IsFlowEvent(e) {
      OutsideAgrees(cfg, s, e);
    } else if e.Hear? {
      HearAgrees(s, e.task);
    } else if e.Publish? {
      PublishAgrees(s, e.task);
    } else if e.Settle? {
      SettleAgrees(s, e.task);
    } else if e.Enter? || e.Release? || e.Drop? || e.HearClosed? || (e.ObserveCancel? && PcOf(s, e.task).Following?) {
      OtherAgrees(cfg, s, e);
    } else {
      OthersDoNotFollow(cfg, s, e);
      QuietAgrees(cfg, s, e);
    }
  }

  lemma OthersDoNotFollow(cfg: Settings, s: State, e: Event)
    requires IsFlowEvent(e) && FlowStep(cfg, s, e).Some?
    requires !e.Hear? && !e.HearClosed? && !e.Drop? && (e.ObserveCancel? ==> !PcOf(s, e.task).Following?)
    ensures !PcOf(s, e.task).Following?
  {
  }

  lemma {:induction false} RunAgrees(cfg: Settings, limited: set<Entry>, run: seq<Event>)
    requires After(cfg, limited, run).Some?
    ensures AllAgree(After(cfg, limited, run).value)
  {
    if run != [] {
      var n := |run| - 1;
      RunAgrees(cfg, limited, run[..n]);
      Coalescing.RunKeeps(cfg, limited, run[..n]);
      StepAgrees(cfg, After(cfg, limited, run[..n]).value, run[n]);
    }
  }
}
