/** The broker as a whole: the approval queue's steps, with flows that are decided
    by the stored rules and grants, and answers that are written into them. */
module BrokerRuns {
  import opened Net
  import opened HostPatterns
  import opened Decision
  import opened RuleEdits
  import opened Answers
  import opened Registry
  import P = ApprovalProtocol
  import Q = ApprovalQueue
  import Runs = ApprovalRuns

  //--- the machine -------------------------------------------------------------------------------

  /** `file` names the kitchen file of each registration. */
  datatype Home = Home(text: IpText, file: P.Entry -> string, tempAllow: nat)

  /** What is stored: kitchen files by name, grants and modes by registration. */
  datatype Book = Book(
    tables: map<string, Table>,
    sessions: map<P.Entry, Session>,
    modes: map<P.Entry, Mode>,
    globals: seq<Rules>
  )

  /** A flow's admission, and what an answer to it will be written down for. */
  datatype Flow = Flow(admission: Admission, subjects: seq<HostPattern>)

  datatype World = World(queue: P.State, flows: map<nat, Flow>, book: Book, clock: int)

  /** `Arrive` comes with the name its flow claims, or else what the sandbox's
      bindings say. `Edit` is whatever else changes rules, grants or modes: the
      command line, an editor, a registration. */
  datatype Event =
    | Arrive(task: nat, entry: P.Entry, address: IpAddr, port: u16, claimed: Option<string>, known: seq<Chain>, tcp: bool,
             dead: bool)
    | Consult(task: nat, now: int)
    | Settle(task: nat, now: int)
    | Queue(step: P.Event)
    | Edit(book: Book)

  function BoxOf(home: Home, book: Book, entry: P.Entry): Sandbox {
    Sandbox(if entry in book.modes then book.modes[entry] else Enforce,
            false,
            if entry in book.sessions then book.sessions[entry] else Session(map[]),
            if home.file(entry) in book.tables then book.tables[home.file(entry)] else map[])
  }

  function KeyOf(home: Home, entry: P.Entry, admission: Admission): Q.Key {
    Q.Key(entry.name, SubjectText(home.text, admission), admission.port)
  }

  function Decided(home: Home, book: Book, entry: P.Entry, admission: Admission, now: int): Decision {
    var s := BoxOf(home, book, entry);
    DecideLayered(home.text.showIp, admission, s.mode, Layers(home.text, s.table, book.globals), s.session, now)
  }

  function VerdictOf(d: Decision): P.Verdict {
    match d
    case Allow(_, _) => P.StoredAllow
    case Deny(_, _) => P.StoredDeny
    case Prompt(_) => P.MustAsk
  }

  function SubjectsOf(home: Home, d: Decision, admission: Admission): seq<HostPattern> {
    if d.Prompt? then Subjects(home.text, d.kind, admission) else []
  }

  /** An answer is written into the kitchen file or the grants. */
  function Written(home: Home, book: Book, entry: P.Entry, subjects: seq<HostPattern>, outcome: Q.Outcome, now: int): Book {
    if !Q.IsAnswer(outcome) then book
    else
      var s := Applied(home.text, BoxOf(home, book, entry), subjects, outcome, now + home.tempAllow);
      book.(tables := book.tables[home.file(entry) := s.table], sessions := book.sessions[entry := s.session])
  }

  function With(w: World, queue: Option<P.State>): Option<World> {
    if queue.None? then None else Some(w.(queue := queue.value))
  }

  predicate IsQueueStep(e: P.Event) {
    !e.Begin? && !e.Consult? && !e.Settle?
  }

  /** One atomic step; `None` when the event cannot happen in `w`. */
  function Step(home: Home, cfg: Q.Settings, w: World, e: Event): Option<World> {
    match e
    case Arrive(t, entry, address, port, claimed, known, tcp, dead) =>
      var admission := AdmissionOf(address, port, claimed, known);
      With(w.(flows := w.flows[t := Flow(admission, [])]),
           P.Next(cfg, w.queue, P.Begin(t, entry, KeyOf(home, entry, admission), tcp, dead)))
    case Consult(t, now) =>
      if now < w.clock || t !in w.flows || t !in w.queue.tasks then None
      else
        var flow := w.flows[t];
        var d := Decided(home, w.book, w.queue.tasks[t].entry, flow.admission, now);
        With(w.(clock := now, flows := w.flows[t := flow.(subjects := SubjectsOf(home, d, flow.admission))]),
             P.Next(cfg, w.queue, P.Consult(t, VerdictOf(d))))
    case Settle(t, now) =>
      if now < w.clock || t !in w.flows || !P.PcOf(w.queue, t).Applying? then None
      else
        var book := Written(home, w.book, w.queue.tasks[t].entry, w.flows[t].subjects, P.PcOf(w.queue, t).outcome, now);
        With(w.(clock := now, book := book), P.Next(cfg, w.queue, P.Settle(t)))
    case Queue(step) => if IsQueueStep(step) then With(w, P.Next(cfg, w.queue, step)) else None
    case Edit(book) => Some(w.(book := book))
  }

  /** The world after a run; `None` when some event could not happen. */
  function After(home: Home, cfg: Q.Settings, w: World, run: seq<Event>): Option<World> {
    if run == [] then Some(w)
    else
      var before := After(home, cfg, w, run[..|run| - 1]);
      if before.None? then None else Step(home, cfg, before.value, run[|run| - 1])
  }

  function Initial(limited: set<P.Entry>, book: Book, clock: int): World {
    World(P.Initial(limited), map[], book, clock)
  }

  //--- a run of the queue ------------------------------------------------------------------------

  /** What the approval queue sees of a step. */
  function Seen(home: Home, w: World, e: Event): seq<P.Event> {
    match e
    case Arrive(t, entry, address, port, claimed, known, tcp, dead) =>
      [P.Begin(t, entry, KeyOf(home, entry, AdmissionOf(address, port, claimed, known)), tcp, dead)]
    case Consult(t, now) =>
      if t in w.flows && t in w.queue.tasks
      then [P.Consult(t, VerdictOf(Decided(home, w.book, w.queue.tasks[t].entry, w.flows[t].admission, now)))] else []
    case Settle(t, _) => [P.Settle(t)]
    case Queue(step) => [step]
    case Edit(_) => []
  }

  function Trace(home: Home, cfg: Q.Settings, w: World, run: seq<Event>): seq<P.Event>
    requires After(home, cfg, w, run).Some?
  {
    if run == [] then []
    else
      var before := run[..|run| - 1];
      Trace(home, cfg, w, before) + Seen(home, After(home, cfg, w, before).value, run[|run| - 1])
  }

  lemma StepIsSeen(home: Home, cfg: Q.Settings, limited: set<P.Entry>, past: seq<P.Event>, w: World, e: Event)
    requires P.After(cfg, limited, past) == Some(w.queue) && Step(home, cfg, w, e).Some?
    ensures P.After(cfg, limited, past + Seen(home, w, e)) == Some(Step(home, cfg, w, e).value.queue)
  {
    var seen := Seen(home, w, e);
    if e.Edit? {
      assert past + seen == past;
    } else {
      Runs.Extend(cfg, limited, past, seen[0], w.queue, Step(home, cfg, w, e).value.queue);
      assert seen == [seen[0]];
    }
  }

  /** Every run of the broker is a run of its approval queue, so that whatever
      holds of all of those holds here. */
  lemma {:induction false} TraceIsARun(home: Home, cfg: Q.Settings, limited: set<P.Entry>, past: seq<P.Event>, w: World,
                                       run: seq<Event>)
    requires P.After(cfg, limited, past) == Some(w.queue) && After(home, cfg, w, run).Some?
    ensures P.After(cfg, limited, past + Trace(home, cfg, w, run)) == Some(After(home, cfg, w, run).value.queue)
  {
    if run == [] {
      assert past + [] == past;
    } else {
      var n := |run| - 1;
      TraceIsARun(home, cfg, limited, past, w, run[..n]);
      var before := After(home, cfg, w, run[..n]).value;
      StepIsSeen(home, cfg, limited, past + Trace(home, cfg, w, run[..n]), before, run[n]);
      assert past + Trace(home, cfg, w, run) == past + Trace(home, cfg, w, run[..n]) + Seen(home, before, run[n]);
    }
  }

  //--- what stays --------------------------------------------------------------------------------

  /** The flows of the queue are the flows of the broker, under their keys, and
      their subjects can be printed. */
  ghost predicate Sound(home: Home, w: World) {
    && w.flows.Keys == w.queue.tasks.Keys
    && (forall t :: t in w.flows ==>
          w.queue.tasks[t].key == KeyOf(home, w.queue.tasks[t].entry, w.flows[t].admission))
    && (forall t, p :: t in w.flows && p in w.flows[t].subjects ==> Printable(home.text, p))
  }

  lemma ArriveKeeps(home: Home, cfg: Q.Settings, w: World, e: Event)
    requires Sound(home, w) && e.Arrive? && Step(home, cfg, w, e).Some?
    ensures Sound(home, Step(home, cfg, w, e).value)
  {
  }

  /** The queue moved, with the flows it had; new subjects can be printed. */
  ghost predicate Moved(home: Home, w: World, w': World) {
    && Runs.SameFlows(w.queue, w'.queue) && w'.queue.tasks.Keys == w.queue.tasks.Keys && w'.flows.Keys == w.flows.Keys
    && forall t :: t in w.flows ==>
         w'.flows[t].admission == w.flows[t].admission
         && forall p :: p in w'.flows[t].subjects ==> p in w.flows[t].subjects || Printable(home.text, p)
  }

  lemma MovedKeeps(home: Home, w: World, w': World)
    requires Sound(home, w) && Moved(home, w, w')
    ensures Sound(home, w')
  {
    forall t | t in w'.flows ensures w'.queue.tasks[t].key == KeyOf(home, w'.queue.tasks[t].entry, w'.flows[t].admission) {
      assert t in w.queue.tasks;
    }
  }

  lemma ConsultMoves(home: Home, cfg: Q.Settings, w: World, e: Event)
    requires Faithful(home.text) && e.Consult? && Step(home, cfg, w, e).Some?
    ensures Moved(home, w, Step(home, cfg, w, e).value)
  {
    Runs.StepSameFlows(cfg, w.queue, Seen(home, w, e)[0]);
    var d := Decided(home, w.book, w.queue.tasks[e.task].entry, w.flows[e.task].admission, e.now);
    if d.Prompt? { SubjectsArePrintable(home.text, d.kind, w.flows[e.task].admission); }
  }

  lemma OtherMoves(home: Home, cfg: Q.Settings, w: World, e: Event)
    requires !e.Arrive? && !e.Consult? && Step(home, cfg, w, e).Some?
    ensures Moved(home, w, Step(home, cfg, w, e).value)
  {
    if !e.Edit? {
      Runs.StepSameFlows(cfg, w.queue, Seen(home, w, e)[0]);
    }
  }

  lemma StepKeeps(home: Home, cfg: Q.Settings, w: World, e: Event)
    requires Faithful(home.text) && Sound(home, w) && Step(home, cfg, w, e).Some?
    ensures Sound(home, Step(home, cfg, w, e).value)
  {
    if e.Arrive? {
      ArriveKeeps(home, cfg, w, e);
    } else {
      if e.Consult? { ConsultMoves(home, cfg, w, e); } else { OtherMoves(home, cfg, w, e); }
      MovedKeeps(home, w, Step(home, cfg, w, e).value);
    }
  }

  lemma {:induction false} RunKeeps(home: Home, cfg: Q.Settings, w: World, run: seq<Event>)
    requires Faithful(home.text) && Sound(home, w) && After(home, cfg, w, run).Some?
    ensures Sound(home, After(home, cfg, w, run).value)
  {
    if run != [] {
      var n := |run| - 1;
      RunKeeps(home, cfg, w, run[..n]);
      StepKeeps(home, cfg, After(home, cfg, w, run[..n]).value, run[n]);
    }
  }
}
