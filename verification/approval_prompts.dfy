/** What every step keeps about prompt ids, their answers and the screen. */
module ApprovalPrompts {
  import opened Net
  import opened ApprovalQueue
  import opened ApprovalProtocol

  /** The id a flow holds until it takes it off the list. */
  function PromptOf(pc: Pc): Option<nat> {
    match pc
    case Listing(_, id) => Some(id)
    case Waiting(_, id, _) => Some(id)
    case Answered(_, id, _) => Some(id)
    case Abandoned(_, id) => Some(id)
    case _ => None
  }

  predicate OnScreen(pc: Pc) {
    pc.Waiting? && (pc.dialog.Preparing? || pc.dialog.Showing?)
  }

  /** A waiting flow is either listed or already answered. */
  ghost predicate PromptOk(s: State, t: nat)
    requires t in s.tasks
  {
    var task := s.tasks[t];
    && task.key.sandbox == task.entry.name
    && (PromptOf(task.pc).Some? ==>
          var id := PromptOf(task.pc).value;
          && 1 <= id <= s.queue.nextId
          && (task.pc.Listing? ==> id !in s.queue.pending && id !in s.answers)
          && (task.pc.Waiting? ==> id in s.queue.pending || id in s.answers))
  }

  /** A listed request belongs to the flow that holds its id. */
  ghost predicate ListedOk(s: State, id: nat)
    requires id in s.queue.pending
  {
    var t := s.queue.pending[id].task;
    && t in s.tasks
    && PromptOf(s.tasks[t].pc) == Some(id)
    && s.queue.pending[id].sandbox == s.tasks[t].key.sandbox
  }

  ghost predicate AnswerOk(s: State, id: nat)
    requires id in s.answers
  {
    && 1 <= id <= s.queue.nextId
    && id !in s.queue.pending
    && (IsAnswer(s.answers[id]) || s.answers[id].Cancelled?)
  }

  ghost predicate Prompts(s: State) {
    && (forall t :: t in s.tasks ==> PromptOk(s, t))
    && (forall id :: id in s.queue.pending ==> ListedOk(s, id))
    && (forall id :: id in s.answers ==> AnswerOk(s, id))
  }

  ghost predicate IdsUnique(s: State) {
    forall t, u :: t in s.tasks && u in s.tasks && t != u && PromptOf(s.tasks[t].pc).Some? ==>
      PromptOf(s.tasks[t].pc) != PromptOf(s.tasks[u].pc)
  }

  /** Exactly the flow that holds the screen has a dialog on it. */
  ghost predicate ScreenOk(s: State) {
    && (forall t :: t in s.tasks ==> (OnScreen(s.tasks[t].pc) <==> s.screen == Some(t)))
    && (s.screen.Some? ==> s.screen.value in s.tasks)
  }

  ghost predicate Prompted(s: State) {
    Prompts(s) && IdsUnique(s) && ScreenOk(s)
  }

  //--- steps -------------------------------------------------------------------------------------

  /** Only flow `t` moved, and it keeps its id or gives it up. */
  ghost predicate Moves(s: State, s': State, t: nat) {
    && t in s.tasks && t in s'.tasks
    && s'.tasks == s.tasks[t := s.tasks[t].(pc := s'.tasks[t].pc)]
  }

  lemma MoveKeepsIds(s: State, s': State, t: nat)
    requires IdsUnique(s) && Moves(s, s', t)
    requires PromptOf(PcOf(s', t)).None? || PromptOf(PcOf(s', t)) == PromptOf(PcOf(s, t))
    ensures IdsUnique(s')
  {
    forall x, y | x in s'.tasks && y in s'.tasks && x != y && PromptOf(s'.tasks[x].pc).Some?
      ensures PromptOf(s'.tasks[x].pc) != PromptOf(s'.tasks[y].pc)
    {
      assert PromptOf(s.tasks[x].pc).Some? ==> PromptOf(s.tasks[x].pc) != PromptOf(s.tasks[y].pc);
    }
  }

  lemma MoveKeepsScreen(s: State, s': State, t: nat)
    requires ScreenOk(s) && Moves(s, s', t)
    requires s'.screen == if OnScreen(PcOf(s', t)) then Some(t) else if OnScreen(PcOf(s, t)) then None else s.screen
    requires OnScreen(PcOf(s', t)) ==> OnScreen(PcOf(s, t)) || s.screen.None?
    ensures ScreenOk(s')
  {
    forall u | u in s'.tasks ensures OnScreen(s'.tasks[u].pc) <==> s'.screen == Some(u) {
      assert OnScreen(s.tasks[u].pc) <==> s.screen == Some(u);
      assert OnScreen(s.tasks[t].pc) <==> s.screen == Some(t);
    }
  }

  /** A move that leaves the list alone. */
  lemma MoveKeepsPrompts(s: State, s': State, t: nat)
    requires Prompts(s) && Moves(s, s', t)
    requires s'.queue.nextId >= s.queue.nextId && s'.queue.pending == s.queue.pending && s'.answers == s.answers
    requires PromptOk(s', t)
    requires PromptOf(PcOf(s, t)).Some? && PromptOf(PcOf(s, t)).value in s.queue.pending ==>
               PromptOf(PcOf(s', t)) == PromptOf(PcOf(s, t))
    ensures Prompts(s')
  {
    forall u | u in s'.tasks ensures PromptOk(s', u) {
      assert PromptOk(s, u);
    }
    forall id | id in s'.queue.pending ensures ListedOk(s', id) {
      assert ListedOk(s, id);
    }
    forall id | id in s'.answers ensures AnswerOk(s', id) {
      assert AnswerOk(s, id);
    }
  }

  /** A fresh id is nobody else's. */
  lemma OpenIsFresh(cfg: Settings, s: State, t: nat)
    requires Prompted(s) && OpenStep(cfg, s, t).Some?
    ensures PromptOk(OpenStep(cfg, s, t).value, t)
  {
    assert PromptOk(s, t);
    var id := s.queue.nextId + 1;
    assert forall i :: i in s.queue.pending ==> ListedOk(s, i) && i <= s.queue.nextId;
    assert forall i :: i in s.answers ==> AnswerOk(s, i) && i <= s.queue.nextId;
  }

  lemma OpenKeepsIds(cfg: Settings, s: State, t: nat)
    requires Prompted(s) && OpenStep(cfg, s, t).Some?
    ensures IdsUnique(OpenStep(cfg, s, t).value)
  {
    var s' := OpenStep(cfg, s, t).value;
    forall x, y | x in s'.tasks && y in s'.tasks && x != y && PromptOf(s'.tasks[x].pc).Some?
      ensures PromptOf(s'.tasks[x].pc) != PromptOf(s'.tasks[y].pc)
    {
      assert PromptOk(s, x) && PromptOk(s, y);
      assert PromptOf(s.tasks[x].pc).Some? ==> PromptOf(s.tasks[x].pc) != PromptOf(s.tasks[y].pc);
    }
  }

  lemma OpenKeeps(cfg: Settings, s: State, t: nat)
    requires Prompted(s) && OpenStep(cfg, s, t).Some?
    ensures Prompted(OpenStep(cfg, s, t).value)
  {
    var s' := OpenStep(cfg, s, t).value;
    OpenIsFresh(cfg, s, t);
    OpenKeepsIds(cfg, s, t);
    MoveKeepsPrompts(s, s', t);
    MoveKeepsScreen(s, s', t);
  }

  lemma ListKeeps(cfg: Settings, s: State, t: nat)
    requires Prompted(s) && ListStep(cfg, s, t).Some?
    ensures Prompted(ListStep(cfg, s, t).value)
  {
    var s' := ListStep(cfg, s, t).value;
    var id := s.tasks[t].pc.id;
    assert PromptOk(s, t);
    assert Prompts(s') by {
      forall u | u in s'.tasks ensures PromptOk(s', u) {
        assert PromptOk(s, u);
        if u != t && PromptOf(s.tasks[u].pc).Some? {
          assert PromptOf(s.tasks[u].pc) != PromptOf(s.tasks[t].pc);
        }
      }
      forall i | i in s'.queue.pending ensures ListedOk(s', i) {
        if i != id { assert ListedOk(s, i); }
      }
      forall i | i in s'.answers ensures AnswerOk(s', i) {
        assert AnswerOk(s, i);
      }
    }
    MoveKeepsIds(s, s', t);
    MoveKeepsScreen(s, s', t);
  }

  lemma UnlistKeeps(s: State, t: nat)
    requires Prompted(s) && UnlistStep(s, t).Some?
    ensures Prompted(UnlistStep(s, t).value)
  {
    var s' := UnlistStep(s, t).value;
    var id := s.tasks[t].pc.id;
    assert Prompts(s') by {
      forall u | u in s'.tasks ensures PromptOk(s', u) {
        assert PromptOk(s, u);
        if u != t && PromptOf(s.tasks[u].pc).Some? {
          assert PromptOf(s.tasks[u].pc) != PromptOf(s.tasks[t].pc);
        }
      }
      forall i | i in s'.queue.pending ensures ListedOk(s', i) {
        assert ListedOk(s, i);
      }
      forall i | i in s'.answers ensures AnswerOk(s', i) {
        assert AnswerOk(s, i);
      }
    }
    MoveKeepsIds(s, s', t);
    MoveKeepsScreen(s, s', t);
  }

  /** Resolving or dropping a waiting flow. */
  lemma WaitStepKeeps(s: State, e: Event)
    requires Prompted(s) && IsFlowEvent(e) && WaitStep(s, e).Some?
    ensures Prompted(WaitStep(s, e).value)
  {
    var t := e.task;
    var s' := WaitStep(s, e).value;
    LeaveScreenIs(s, t);
    assert PromptOk(s, t);
    MoveKeepsPrompts(s, s', t);
    MoveKeepsIds(s, s', t);
    MoveKeepsScreen(s, s', t);
  }

  lemma LeaveScreenIs(s: State, t: nat)
    requires ScreenOk(s) && t in s.tasks
    ensures LeaveScreen(s, t).screen == if OnScreen(s.tasks[t].pc) then None else s.screen
  {
  }

  lemma DropKeeps(s: State, t: nat)
    requires Prompted(s) && DropStep(s, t).Some?
    ensures Prompted(DropStep(s, t).value)
  {
    var s' := DropStep(s, t).value;
    LeaveScreenIs(s, t);
    assert PromptOk(s, t);
    DropMoves(s, t);
    MoveKeepsPrompts(s, s', t);
    MoveKeepsIds(s, s', t);
    MoveKeepsScreen(s, s', t);
  }

  lemma DropMoves(s: State, t: nat)
    requires DropStep(s, t).Some?
    ensures var s' := DropStep(s, t).value;
            && Moves(s, s', t) && s'.queue == s.queue && s'.answers == s.answers
            && s'.screen == (if s.screen == Some(t) && PcOf(s, t).Waiting? then None else s.screen)
            && PromptOf(PcOf(s', t)) == PromptOf(PcOf(s, t)) && !OnScreen(PcOf(s', t))
  {
  }

  lemma DialogStepKeeps(s: State, t: nat, s': State)
    requires Prompted(s) && (TakeScreenStep(s, t) == Some(s') || ShowStep(s, t) == Some(s'))
    ensures Prompted(s')
  {
    assert PromptOk(s, t);
    assert s.screen == Some(t) || !OnScreen(s.tasks[t].pc);
    MoveKeepsPrompts(s, s', t);
    MoveKeepsIds(s, s', t);
    MoveKeepsScreen(s, s', t);
  }

  /** Steps of a flow without an id. */
  lemma PlainMoveKeeps(s: State, s': State, t: nat)
    requires Prompted(s) && t in s.tasks && t in s'.tasks
    requires forall u :: u in s.tasks && u != t ==> u in s'.tasks && s'.tasks[u] == s.tasks[u]
    requires s'.tasks.Keys == s.tasks.Keys && s'.tasks[t].key == s.tasks[t].key && s'.tasks[t].entry == s.tasks[t].entry
    requires PromptOf(PcOf(s, t)).None? && PromptOf(PcOf(s', t)).None?
    requires s'.queue.nextId == s.queue.nextId && s'.queue.pending == s.queue.pending
    requires s'.answers == s.answers && s'.screen == s.screen
    ensures Prompted(s')
  {
    PlainMoveKeepsPrompts(s, s', t);
    forall u | u in s'.tasks ensures OnScreen(s'.tasks[u].pc) <==> s'.screen == Some(u) {
      assert OnScreen(s.tasks[u].pc) <==> s.screen == Some(u);
    }
  }

  lemma PlainMoveKeepsPrompts(s: State, s': State, t: nat)
    requires Prompts(s) && t in s.tasks && t in s'.tasks
    requires forall u :: u in s.tasks && u != t ==> u in s'.tasks && s'.tasks[u] == s.tasks[u]
    requires s'.tasks.Keys == s.tasks.Keys && s'.tasks[t].key == s.tasks[t].key && s'.tasks[t].entry == s.tasks[t].entry
    requires PromptOf(PcOf(s, t)).None? && PromptOf(PcOf(s', t)).None?
    requires s'.queue.nextId == s.queue.nextId && s'.queue.pending == s.queue.pending && s'.answers == s.answers
    ensures Prompts(s')
  {
    forall u | u in s'.tasks ensures PromptOk(s', u) {
      assert PromptOk(s, u);
    }
    forall id | id in s'.queue.pending ensures ListedOk(s', id) {
      assert ListedOk(s, id);
    }
    forall id | id in s'.answers ensures AnswerOk(s', id) {
      assert AnswerOk(s, id);
    }
  }

  /** Requests taken off the list are answered if their flow still waits. */
  lemma AnsweringKeeps(s: State, s': State, ids: set<nat>)
    requires Prompted(s)
    requires s'.tasks == s.tasks && s'.screen == s.screen && s'.queue.nextId == s.queue.nextId
    requires s'.queue.pending == s.queue.pending - ids
    requires forall id :: id in s'.answers ==>
               if id in ids && Reachable(s, id) then IsAnswer(s'.answers[id]) || s'.answers[id].Cancelled?
               else id in s.answers && s'.answers[id] == s.answers[id]
    requires forall id :: id in s.answers || (id in ids && Reachable(s, id)) ==> id in s'.answers
    ensures Prompted(s')
  {
    forall u | u in s'.tasks ensures PromptOk(s', u) {
      assert PromptOk(s, u);
      if s.tasks[u].pc.Waiting? && s.tasks[u].pc.id in ids && s.tasks[u].pc.id in s.queue.pending {
        var id := s.tasks[u].pc.id;
        assert ListedOk(s, id);
        assert u == s.queue.pending[id].task;
      }
      assert s.tasks[u].pc.Listing? ==> !Reachable(s, s.tasks[u].pc.id);
    }
    forall id | id in s'.queue.pending ensures ListedOk(s', id) {
      assert ListedOk(s, id);
    }
    forall id | id in s'.answers ensures AnswerOk(s', id) {
      if id in ids && Reachable(s, id) {
        assert ListedOk(s, id) && PromptOk(s, s.queue.pending[id].task);
      } else {
        assert AnswerOk(s, id);
      }
    }
  }

  lemma DecideKeeps(s: State, id: nat, answer: Outcome)
    requires Prompted(s) && IsAnswer(answer)
    ensures Prompted(DecideId(s, id, answer))
  {
    AnsweringKeeps(s, DecideId(s, id, answer), {id});
  }

  lemma CancelKeeps(s: State, sandbox: string)
    requires Prompted(s)
    ensures Prompted(CancelRequests(s, sandbox))
  {
    AnsweringKeeps(s, CancelRequests(s, sandbox), IdsOf(s.queue.pending, sandbox));
  }

  lemma BeginKeeps(s: State, t: nat, task: Task)
    requires Prompted(s) && t !in s.tasks && task.pc.Starting? && task.key.sandbox == task.entry.name
    ensures Prompted(s.(tasks := s.tasks[t := task]))
  {
    var s' := s.(tasks := s.tasks[t := task]);
    forall u | u in s'.tasks ensures PromptOk(s', u) && (OnScreen(s'.tasks[u].pc) <==> s'.screen == Some(u)) {
      if u != t { assert PromptOk(s, u) && (OnScreen(s.tasks[u].pc) <==> s.screen == Some(u)); }
    }
    forall id | id in s'.queue.pending ensures ListedOk(s', id) {
      assert ListedOk(s, id);
    }
    forall id | id in s'.answers ensures AnswerOk(s', id) {
      assert AnswerOk(s, id);
    }
  }

  /** Cancelling flows, resetting histories and lifting limits do not touch prompts. */
  lemma TokenKeeps(s: State, s': State)
    requires Prompted(s)
    requires s'.tasks.Keys == s.tasks.Keys
    requires forall u :: u in s.tasks ==> s'.tasks[u] == s.tasks[u].(cancelled := s'.tasks[u].cancelled)
    requires s'.queue.nextId == s.queue.nextId && s'.queue.pending == s.queue.pending
    requires s'.answers == s.answers && s'.screen == s.screen
    ensures Prompted(s')
  {
    forall u | u in s'.tasks ensures PromptOk(s', u) && (OnScreen(s'.tasks[u].pc) <==> s'.screen == Some(u)) {
      assert PromptOk(s, u) && (OnScreen(s.tasks[u].pc) <==> s.screen == Some(u));
    }
    forall id | id in s'.queue.pending ensures ListedOk(s', id) {
      assert ListedOk(s, id);
    }
    forall id | id in s'.answers ensures AnswerOk(s', id) {
      assert AnswerOk(s, id);
    }
  }

  ghost predicate PlainMove(s: State, s': State, t: nat) {
    && t in s.tasks && t in s'.tasks
    && s'.tasks == s.tasks[t := s'.tasks[t]]
    && s'.tasks[t].key == s.tasks[t].key && s'.tasks[t].entry == s.tasks[t].entry
    && PromptOf(PcOf(s, t)).None? && PromptOf(PcOf(s', t)).None?
    && s'.queue.nextId == s.queue.nextId && s'.queue.pending == s.queue.pending
    && s'.answers == s.answers && s'.screen == s.screen
  }

  lemma EarlyStepIsPlain(cfg: Settings, s: State, e: Event)
    requires e.CheckLimited? || e.Consult? || e.CountPrompt? || e.Enter? || (e.Open? && !cfg.ReachesHuman())
    requires FlowStep(cfg, s, e).Some?
    ensures PlainMove(s, FlowStep(cfg, s, e).value, e.task)
  {
  }

  lemma LateStepIsPlain(cfg: Settings, s: State, e: Event)
    requires e.Release? || e.Publish? || e.Hear? || e.HearClosed? || e.Settle?
             || (e.ObserveCancel? && PcOf(s, e.task).Following?)
    requires FlowStep(cfg, s, e).Some?
    ensures PlainMove(s, FlowStep(cfg, s, e).value, e.task)
  {
    if e.Release? || e.Publish? || e.Settle? {
      LeaderStepIsPlain(cfg, s, e);
    }
  }

  lemma LeaderStepIsPlain(cfg: Settings, s: State, e: Event)
    requires (e.Release? || e.Publish? || e.Settle?) && FlowStep(cfg, s, e).Some?
    ensures PlainMove(s, FlowStep(cfg, s, e).value, e.task)
  {
  }

  lemma FlowStepKeeps(cfg: Settings, s: State, e: Event)
    requires Prompted(s) && IsFlowEvent(e) && FlowStep(cfg, s, e).Some?
    ensures Prompted(FlowStep(cfg, s, e).value)
  {
    var t := e.task;
    var s' := FlowStep(cfg, s, e).value;
    if e.CheckLimited? || e.Consult? || e.CountPrompt? || e.Enter? {
      EarlyStepIsPlain(cfg, s, e);
      PlainMoveKeeps(s, s', t);
    } else if e.Release? || e.Publish? || e.Hear? || e.HearClosed? || e.Settle?
              || (e.ObserveCancel? && PcOf(s, t).Following?) {
      LateStepIsPlain(cfg, s, e);
      PlainMoveKeeps(s, s', t);
    } else {
      PromptStepKeeps(cfg, s, e);
    }
  }

  lemma PromptStepKeeps(cfg: Settings, s: State, e: Event)
    requires Prompted(s) && IsFlowEvent(e) && FlowStep(cfg, s, e).Some?
    requires !e.CheckLimited? && !e.Consult? && !e.CountPrompt? && !e.Enter? && !e.Release? && !e.Publish?
    requires !e.Hear? && !e.HearClosed? && !e.Settle? && !(e.ObserveCancel? && PcOf(s, e.task).Following?)
    ensures Prompted(FlowStep(cfg, s, e).value)
  {
    var t := e.task;
    match e
    case Open(_) => OpenKeeps(cfg, s, t);
    case List(_) => ListKeeps(cfg, s, t);
    case Unlist(_) => UnlistKeeps(s, t);
    case TakeScreen(_) => DialogStepKeeps(s, t, TakeScreenStep(s, t).value);
    case ShowDialog(_) => DialogStepKeeps(s, t, ShowStep(s, t).value);
    case Drop(_) => DropKeeps(s, t);
    case _ => WaitStepKeeps(s, e);
  }

  /** Events that touch only tokens, counters or limits. */
  lemma TokenEventKeeps(cfg: Settings, s: State, e: Event)
    requires Prompted(s) && (e.CancelFlow? || e.Reset? || e.Resume?) && Next(cfg, s, e).Some?
    ensures Prompted(Next(cfg, s, e).value)
  {
    TokenEventIs(cfg, s, e);
    TokenKeeps(s, Next(cfg, s, e).value);
  }

  lemma TokenEventIs(cfg: Settings, s: State, e: Event)
    requires (e.CancelFlow? || e.Reset? || e.Resume?) && Next(cfg, s, e).Some?
    ensures var s' := Next(cfg, s, e).value;
            && s'.tasks.Keys == s.tasks.Keys
            && (forall u :: u in s.tasks ==> s'.tasks[u] == s.tasks[u].(cancelled := s'.tasks[u].cancelled))
            && s'.queue.nextId == s.queue.nextId && s'.queue.pending == s.queue.pending
            && s'.answers == s.answers && s'.screen == s.screen
  {
  }

  lemma RetireKeeps(s: State, entry: Entry)
    requires Prompted(s)
    ensures Prompted(RetireEntry(s, entry))
  {
    TokenKeeps(s, RetireEntry(s, entry));
  }

  lemma OutsideKeeps(cfg: Settings, s: State, e: Event)
    requires Prompted(s) && !IsFlowEvent(e) && Next(cfg, s, e).Some?
    ensures Prompted(Next(cfg, s, e).value)
  {
    match e
    case Begin(t, entry, key, tcp, dead) => BeginKeeps(s, t, Task(entry, key, tcp, dead, Starting, false, 0, {}));
    case Decide(id, answer) => DecideKeeps(s, id, answer);
    case CancelSandbox(sandbox) => CancelKeeps(s, sandbox);
    case Retire(entry) => RetireKeeps(s, entry);
    case _ => TokenEventKeeps(cfg, s, e);
  }

  /** Every step keeps ids, answers and the screen in order. */
  lemma StepKeeps(cfg: Settings, s: State, e: Event)
    requires Prompted(s) && Next(cfg, s, e).Some?
    ensures Prompted(Next(cfg, s, e).value)
  {
    if IsFlowEvent(e) {
      FlowStepKeeps(cfg, s, e);
    } else {
      OutsideKeeps(cfg, s, e);
    }
  }

  lemma {:induction false} RunKeeps(cfg: Settings, limited: set<Entry>, run: seq<Event>)
    requires After(cfg, limited, run).Some?
    ensures Prompted(After(cfg, limited, run).value)
  {
    if run != [] {
      var n := |run| - 1;
      RunKeeps(cfg, limited, run[..n]);
      StepKeeps(cfg, After(cfg, limited, run[..n]).value, run[n]);
    }
  }
}
