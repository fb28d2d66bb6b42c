/** Admissions as concurrent flows: every atomic step of `Broker::admit` and of
    `ApprovalQueue::ask`, interleaved arbitrarily. A flow's program counter says
    which await point or lock region comes next. */
module ApprovalProtocol {
  import opened Net
  import opened ApprovalQueue

  /** A registration. A sandbox that is retired and registered again gets a new
      one under the same name. */
  datatype Entry = Entry(name: string, generation: nat)

  /** What the stored rules say about a flow (`decide_layered`). */
  datatype Verdict = StoredAllow | StoredDeny | MustAsk

  /** The dialog side of the `select!` in `prompt`. */
  datatype Dialog = NoDialog | AwaitingScreen | Preparing | Showing

  datatype Pc =
    | Starting                                              // before the rate-limit check
    | Unlimited                                             // about to consult the stored rules
    | Asking                                                // at the head of `ask`'s loop
    | Counting(channel: nat)                                // leader, about to count its prompt
    | Opening(channel: nat)                                 // leader, inside `prompt`
    | Listing(channel: nat, id: nat)                        // leader with an id, not yet listed
    | Waiting(channel: nat, id: nat, dialog: Dialog)        // leader, in the `select!`
    | Answered(channel: nat, id: nat, outcome: Outcome)     // leader, about to unlist its id
    | Releasing(channel: nat, outcome: Outcome)             // leader, about to remove its key
    | Publishing(channel: nat, outcome: Outcome)            // leader, about to send on its channel
    | Following(channel: nat)                               // follower, waiting for a leader
    | Applying(outcome: Outcome)                            // `ask` returned
    | Returned(allowed: bool, asked: Option<Outcome>)       // `admit` returned
    | Abandoned(channel: nat, id: nat)                      // leader dropped in the `select!`
    | Gone                                                  // follower dropped

  /** `led`, `rounds` and `followed` only remember what the flow did so far. */
  datatype Task = Task(
    entry: Entry,
    key: Key,
    tcp: bool,
    cancelled: bool,
    pc: Pc,
    led: bool,
    rounds: nat,
    followed: set<nat>
  )

  /** A watch channel: the leader that owns the sender, and the value sent. */
  datatype Channel = Channel(key: Key, owner: nat, value: Option<Outcome>)

  datatype State = State(
    queue: Queue,
    channels: seq<Channel>,
    answers: map<nat, Outcome>,        // what was sent on each id's answer channel
    screen: Option<nat>,               // the flow whose dialog holds the screen
    tasks: map<nat, Task>,
    limited: set<Entry>,
    notices: map<Entry, nat>,          // notifications per registration
    lifted: map<Entry, nat>            // how often `resume` lifted a tripped limit
  )

  datatype Event =
    | Begin(task: nat, entry: Entry, key: Key, tcp: bool, dead: bool)
    | CheckLimited(task: nat)
    | Consult(task: nat, verdict: Verdict)
    | Enter(task: nat)
    | CountPrompt(task: nat, now: int)
    | Open(task: nat)
    | List(task: nat)
    | TakeScreen(task: nat)
    | ShowDialog(task: nat)
    | MissDeadline(task: nat)
    | AnswerDialog(task: nat, outcome: Outcome)
    | ReceiveAnswer(task: nat)
    | TimeOut(task: nat)
    | ObserveCancel(task: nat)
    | Unlist(task: nat)
    | Release(task: nat)
    | Publish(task: nat)
    | Hear(task: nat)
    | HearClosed(task: nat)
    | Settle(task: nat)
    | Decide(id: nat, answer: Outcome)
    | CancelFlow(task: nat)
    | Retire(entry: Entry)
    | CancelSandbox(sandbox: string)
    | Reset(sandbox: string)
    | Resume(entry: Entry)
    | Drop(task: nat)

  /** No flows; `limited` is what a restart restored. */
  function Initial(limited: set<Entry>): State {
    State(EMPTY, [], map[], None, map[], limited, map[], map[])
  }

  function PcOf(s: State, t: nat): Pc {
    if t in s.tasks then s.tasks[t].pc else Gone
  }

  function Goto(s: State, t: nat, pc: Pc): State
    requires t in s.tasks
  {
    s.(tasks := s.tasks[t := s.tasks[t].(pc := pc)])
  }

  function CountOf(counts: map<Entry, nat>, entry: Entry): nat {
    if entry in counts then counts[entry] else 0
  }

  /** Leaving the `select!` drops the dialog and with it the screen. */
  function LeaveScreen(s: State, t: nat): State {
    s.(screen := if s.screen == Some(t) then None else s.screen)
  }

  /** The `select!` of a waiting leader ends with `outcome`. */
  function Resolve(s: State, t: nat, outcome: Outcome): State
    requires PcOf(s, t).Waiting?
  {
    Goto(LeaveScreen(s, t), t, Answered(s.tasks[t].pc.channel, s.tasks[t].pc.id, outcome))
  }

  /** Whether an answer sent for `id` still reaches its flow. */
  predicate Reachable(s: State, id: nat) {
    id in s.queue.pending
    && var pc := PcOf(s, s.queue.pending[id].task); pc.Waiting? && pc.id == id
  }

  /** The head of `ask`'s loop: follow the key's leader, or become it. */
  function EnterQueue(s: State, t: nat): State
    requires t in s.tasks
  {
    var task := s.tasks[t];
    if task.key in s.queue.inflight then
      var c := s.queue.inflight[task.key];
      s.(tasks := s.tasks[t := task.(pc := Following(c), rounds := task.rounds + 1, followed := task.followed + {c})])
    else
      var c := |s.channels|;
      s.(queue := s.queue.Lead(task.key, c),
         channels := s.channels + [Channel(task.key, t, None)],
         tasks := s.tasks[t := task.(pc := Counting(c), led := true, rounds := task.rounds + 1)])
  }

  /** `trip_rate_limit` and `apply` for the outcome that `ask` returned. */
  function SettleOutcome(s: State, t: nat, outcome: Outcome): State
    requires t in s.tasks
  {
    var entry := s.tasks[t].entry;
    var tripped := if outcome.RateLimited? && entry !in s.limited
      then s.(limited := s.limited + {entry}, notices := s.notices[entry := CountOf(s.notices, entry) + 1])
      else s;
    Goto(tripped, t, Returned(outcome.Allow? || outcome.Temp?, Some(outcome)))
  }

  /** `decide`: the request leaves the list, and its flow is answered if it
      still listens. */
  function DecideId(s: State, id: nat, answer: Outcome): State {
    s.(queue := s.queue.Unlist(id),
       answers := if Reachable(s, id) then s.answers[id := answer] else s.answers)
  }

  function CancelRequests(s: State, sandbox: string): State {
    s.(queue := s.queue.CancelSandbox(sandbox),
       answers := s.answers + map id | id in IdsOf(s.queue.pending, sandbox) && Reachable(s, id) :: Cancelled)
  }

  function RetireEntry(s: State, entry: Entry): State {
    s.(tasks := map t | t in s.tasks ::
         if s.tasks[t].entry == entry then s.tasks[t].(cancelled := true) else s.tasks[t])
  }

  function ResumeEntry(s: State, entry: Entry): State {
    if entry in s.limited
    then s.(limited := s.limited - {entry}, lifted := s.lifted[entry := CountOf(s.lifted, entry) + 1])
    else s
  }

  /** One atomic step; `None` when the event cannot happen in `s`. */
  function Next(cfg: Settings, s: State, e: Event): Option<State> {
    match e
    case Begin(t, entry, key, tcp, dead) =>
      if t !in s.tasks && key.sandbox == entry.name
      then Some(s.(tasks := s.tasks[t := Task(entry, key, tcp, dead, Starting, false, 0, {})])) else None
    case Decide(id, answer) => if IsAnswer(answer) then Some(DecideId(s, id, answer)) else None
    case CancelFlow(t) =>
      if t in s.tasks then Some(s.(tasks := s.tasks[t := s.tasks[t].(cancelled := true)])) else None
    case Retire(entry) => Some(RetireEntry(s, entry))
    case CancelSandbox(sandbox) => Some(CancelRequests(s, sandbox))
    case Reset(sandbox) => Some(s.(queue := s.queue.Reset(sandbox)))
    case Resume(entry) => Some(ResumeEntry(s, entry))
    case _ => FlowStep(cfg, s, e)
  }

  predicate IsFlowEvent(e: Event) {
    !e.Begin? && !e.Decide? && !e.CancelFlow? && !e.Retire? && !e.CancelSandbox? && !e.Reset? && !e.Resume?
  }

  /** A step that a flow takes at its program counter. */
  function FlowStep(cfg: Settings, s: State, e: Event): Option<State>
    requires IsFlowEvent(e)
  {
    match e
    case CheckLimited(t) => CheckStep(s, t)
    case Consult(t, verdict) => ConsultStep(s, t, verdict)
    case Enter(t) => if PcOf(s, t).Asking? then Some(EnterQueue(s, t)) else None
    case CountPrompt(t, now) => CountStep(cfg, s, t, now)
    case Open(t) => OpenStep(cfg, s, t)
    case List(t) => ListStep(cfg, s, t)
    case TakeScreen(t) => TakeScreenStep(s, t)
    case ShowDialog(t) => ShowStep(s, t)
    case Unlist(t) => UnlistStep(s, t)
    case Release(t) => ReleaseStep(s, t)
    case Publish(t) => PublishStep(s, t)
    case Hear(t) => HearStep(s, t)
    case HearClosed(t) => HearClosedStep(s, t)
    case Settle(t) => SettleStep(s, t)
    case Drop(t) => DropStep(s, t)
    case ObserveCancel(t) =>
      if PcOf(s, t).Following? then
        if s.tasks[t].cancelled then Some(Goto(s, t, Applying(Cancelled))) else None
      else WaitStep(s, e)
    case _ => WaitStep(s, e)
  }

  function CheckStep(s: State, t: nat): Option<State> {
    if PcOf(s, t).Starting?
    then Some(Goto(s, t, if s.tasks[t].entry in s.limited then Returned(false, None) else Unlimited)) else None
  }

  function ConsultStep(s: State, t: nat, verdict: Verdict): Option<State> {
    if PcOf(s, t).Unlimited?
    then Some(Goto(s, t, if verdict.MustAsk? then Asking else Returned(verdict.StoredAllow?, None))) else None
  }

  function CountStep(cfg: Settings, s: State, t: nat, now: int): Option<State> {
    match PcOf(s, t)
    case Counting(c) =>
      if cfg.ReachesHuman() then
        var (accepted, queue) := s.queue.CountPrompt(cfg, s.tasks[t].key.sandbox, now);
        Some(Goto(s.(queue := queue), t, if accepted then Opening(c) else Releasing(c, RateLimited)))
      else Some(Goto(s, t, Opening(c)))
    case _ => None
  }

  function OpenStep(cfg: Settings, s: State, t: nat): Option<State> {
    match PcOf(s, t)
    case Opening(c) =>
      if cfg.ReachesHuman() then Some(Goto(s.(queue := s.queue.TakeId()), t, Listing(c, s.queue.nextId + 1)))
      else Some(Goto(s, t, Releasing(c, Dismissed)))
    case _ => None
  }

  function ListStep(cfg: Settings, s: State, t: nat): Option<State> {
    match PcOf(s, t)
    case Listing(c, id) =>
      Some(Goto(s.(queue := s.queue.List(id, Pending(t, s.tasks[t].key.sandbox))), t,
                Waiting(c, id, if cfg.surface then AwaitingScreen else NoDialog)))
    case _ => None
  }

  function TakeScreenStep(s: State, t: nat): Option<State> {
    match PcOf(s, t)
    case Waiting(c, id, AwaitingScreen) =>
      if s.screen.None? then Some(Goto(s.(screen := Some(t)), t, Waiting(c, id, Preparing))) else None
    case _ => None
  }

  function ShowStep(s: State, t: nat): Option<State> {
    match PcOf(s, t)
    case Waiting(c, id, Preparing) => Some(Goto(s, t, Waiting(c, id, Showing)))
    case _ => None
  }

  /** The branches of the `select!` in `prompt`. */
  function WaitStep(s: State, e: Event): Option<State>
    requires IsFlowEvent(e)
  {
    var t := e.task;
    if !PcOf(s, t).Waiting? then None
    else
      var outcome := WaitOutcome(s, e, s.tasks[t].pc.id, s.tasks[t].pc.dialog);
      if outcome.Some? then Some(Resolve(s, t, outcome.value)) else None
  }

  /** Which outcome a branch takes, if it is ready. */
  function WaitOutcome(s: State, e: Event, id: nat, dialog: Dialog): Option<Outcome>
    requires IsFlowEvent(e)
  {
    match e
    case MissDeadline(_) => if dialog.Preparing? then Some(Dismissed) else None
    case AnswerDialog(_, outcome) =>
      if dialog.Showing? && (IsAnswer(outcome) || outcome.Dismissed?) then Some(outcome) else None
    case ReceiveAnswer(_) =>
      // A sender dropped without an answer reads as `Cancelled`.
      if id in s.answers then Some(s.answers[id])
      else if id !in s.queue.pending then Some(Cancelled) else None
    case TimeOut(_) => Some(Dismissed)
    case ObserveCancel(t) => if t in s.tasks && s.tasks[t].cancelled then Some(Cancelled) else None
    case _ => None
  }

  function UnlistStep(s: State, t: nat): Option<State> {
    match PcOf(s, t)
    case Answered(c, id, outcome) => Some(Goto(s.(queue := s.queue.Unlist(id)), t, Releasing(c, outcome)))
    case _ => None
  }

  function ReleaseStep(s: State, t: nat): Option<State> {
    match PcOf(s, t)
    case Releasing(c, outcome) =>
      Some(Goto(s.(queue := s.queue.Release(s.tasks[t].key)), t, Publishing(c, outcome)))
    case _ => None
  }

  function PublishStep(s: State, t: nat): Option<State> {
    match PcOf(s, t)
    case Publishing(c, outcome) =>
      if c < |s.channels|
      then Some(Goto(s.(channels := s.channels[c := s.channels[c].(value := Some(outcome))]), t, Applying(outcome)))
      else None
    case _ => None
  }

  /** A follower whose leader was cancelled asks again on its own behalf. */
  function HearStep(s: State, t: nat): Option<State> {
    match PcOf(s, t)
    case Following(c) =>
      if c < |s.channels| && s.channels[c].value.Some?
      then Some(Goto(s, t, if s.channels[c].value.value.Cancelled? then Asking else Applying(s.channels[c].value.value)))
      else None
    case _ => None
  }

  /** The sender was dropped with its leader: ask again. */
  function HearClosedStep(s: State, t: nat): Option<State> {
    match PcOf(s, t)
    case Following(c) =>
      if c < |s.channels| && s.channels[c].value.None? && PcOf(s, s.channels[c].owner).Abandoned?
      then Some(Goto(s, t, Asking)) else None
    case _ => None
  }

  function SettleStep(s: State, t: nat): Option<State> {
    match PcOf(s, t)
    case Applying(outcome) => Some(SettleOutcome(s, t, outcome))
    case _ => None
  }

  /** Only the TCP mediator drops the `admit` future, and only at an await point. */
  function DropStep(s: State, t: nat): Option<State> {
    match PcOf(s, t)
    case Waiting(c, id, _) =>
      if s.tasks[t].tcp then Some(Goto(LeaveScreen(s, t), t, Abandoned(c, id))) else None
    case Following(_) => if s.tasks[t].tcp then Some(Goto(s, t, Gone)) else None
    case _ => None
  }

  /** The state after a run; `None` when some event could not happen. */
  function After(cfg: Settings, limited: set<Entry>, run: seq<Event>): Option<State> {
    if run == [] then Some(Initial(limited))
    else
      var before := After(cfg, limited, run[..|run| - 1]);
      if before.None? then None else Next(cfg, before.value, run[|run| - 1])
  }
}
