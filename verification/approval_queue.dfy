/** The approval queue's shared state (`ApprovalQueue`) and its lock regions:
    each region is one function on the queue's contents, and one method of the
    class that updates the contents in place. */
module ApprovalQueue {
  import opened Net
  import RateLimit

  datatype Outcome = Allow | Deny | Temp | Dismissed | Cancelled | RateLimited

  /** What `decide` and the dialog's buttons can answer. */
  predicate IsAnswer(outcome: Outcome) {
    outcome.Allow? || outcome.Deny? || outcome.Temp?
  }

  /** Flows with the same key share one prompt. */
  datatype Key = Key(sandbox: string, subject: string, port: u16)

  datatype Settings = Settings(surface: bool, queueHeadless: bool, maxPrompts: nat, window: nat) {
    /** Someone can answer: on screen, or on the command line. */
    predicate ReachesHuman() {
      surface || queueHeadless
    }
  }

  /** A listed request and the flow whose answer channel it holds. */
  datatype Pending = Pending(task: nat, sandbox: string)

  /** `inflight` maps a key to the identity of its leader's watch channel. */
  datatype Queue = Queue(
    nextId: nat,
    pending: map<nat, Pending>,
    inflight: map<Key, nat>,
    recent: map<string, seq<int>>
  ) {
    function Lead(key: Key, channel: nat): Queue {
      this.(inflight := inflight[key := channel])
    }

    function Release(key: Key): Queue {
      this.(inflight := inflight - {key})
    }

    function CountPrompt(settings: Settings, sandbox: string, now: int): (bool, Queue) {
      var (accepted, times) := RateLimit.Count(Times(recent, sandbox), now, settings.window, settings.maxPrompts);
      (accepted, this.(recent := recent[sandbox := times]))
    }

    function TakeId(): Queue {
      this.(nextId := nextId + 1)
    }

    function List(id: nat, request: Pending): Queue {
      this.(pending := pending[id := request])
    }

    function Unlist(id: nat): Queue {
      this.(pending := pending - {id})
    }

    function CancelSandbox(sandbox: string): Queue {
      this.(pending := pending - IdsOf(pending, sandbox))
    }

    function Reset(sandbox: string): Queue {
      this.(recent := recent - {sandbox})
    }
  }

  const EMPTY := Queue(0, map[], map[], map[])

  function Times(recent: map<string, seq<int>>, sandbox: string): seq<int> {
    if sandbox in recent then recent[sandbox] else []
  }

  function IdsOf(pending: map<nat, Pending>, sandbox: string): set<nat> {
    set id | id in pending && pending[id].sandbox == sandbox
  }

  /** A deque is what the calls since the sandbox's last reset leave of it. */
  ghost predicate PrunedFrom(times: seq<int>, calls: seq<int>, clock: int, settings: Settings) {
    && times == RateLimit.After(calls, settings.window, settings.maxPrompts).0
    && RateLimit.Timeline(calls, clock)
  }

  ghost predicate Pruned(recent: map<string, seq<int>>, calls: map<string, seq<int>>, clock: int, settings: Settings) {
    calls.Keys == recent.Keys && forall s :: s in recent ==> PrunedFrom(recent[s], calls[s], clock, settings)
  }

  /** One counted prompt: the deque's answer is the full history's. */
  lemma CountFrom(times: seq<int>, calls: seq<int>, clock: int, settings: Settings, now: int)
    requires PrunedFrom(times, calls, clock, settings) && clock <= now
    ensures var (accepted, times') := RateLimit.Count(times, now, settings.window, settings.maxPrompts);
            var before := RateLimit.Accepted(calls, settings.window, settings.maxPrompts);
            && PrunedFrom(times', calls + [now], now, settings)
            && (accepted <==> RateLimit.InWindow(before, now, settings.window) < settings.maxPrompts)
            && RateLimit.Accepted(calls + [now], settings.window, settings.maxPrompts)
               == if accepted then before + [now] else before
  {
    RateLimit.TimelineMore(calls, clock, now);
    RateLimit.LimiterRefinesHistory(calls, now, settings.window, settings.maxPrompts);
    RateLimit.LimiterRefinesHistory(calls + [now], now, settings.window, settings.maxPrompts);
    RateLimit.AfterMore(calls, now, settings.window, settings.maxPrompts);
  }

  lemma CountKeepsPruned(recent: map<string, seq<int>>, calls: map<string, seq<int>>, clock: int, settings: Settings,
                         sandbox: string, now: int)
    requires Pruned(recent, calls, clock, settings) && clock <= now
    ensures PrunedFrom(Times(recent, sandbox), Times(calls, sandbox), clock, settings)
    ensures var times := RateLimit.Count(Times(recent, sandbox), now, settings.window, settings.maxPrompts).1;
            Pruned(recent[sandbox := times], calls[sandbox := Times(calls, sandbox) + [now]], now, settings)
  {
    assert PrunedFrom(Times(recent, sandbox), Times(calls, sandbox), clock, settings);
    CountFrom(Times(recent, sandbox), Times(calls, sandbox), clock, settings, now);
    forall s | s in recent ensures PrunedFrom(recent[s], calls[s], now, settings) {
      RateLimit.TimelineMore(calls[s], clock, now);
    }
  }

  datatype Role = Leader(sender: nat) | Follower(receiver: nat)

  class ApprovalQueue {
    const settings: Settings
    var nextId: nat
    var pending: map<nat, Pending>
    var inflight: map<Key, nat>
    var recent: map<string, seq<int>>
    /** When each sandbox's prompts were counted since its last reset. */
    ghost var calls: map<string, seq<int>>
    /** The latest clock reading that `CountPrompt` saw. */
    ghost var clock: int

    constructor (settings: Settings)
      ensures Valid() && this.settings == settings && Contents() == EMPTY && calls == map[]
    {
      this.settings := settings;
      nextId, pending, inflight, recent := 0, map[], map[], map[];
      calls, clock := map[], 0;
    }

    function Contents(): Queue
      reads this
    {
      Queue(nextId, pending, inflight, recent)
    }

    ghost predicate Valid()
      reads this
    {
      Pruned(recent, calls, clock, settings)
    }

    /** The prompts accepted for a sandbox since its last reset, unpruned. */
    ghost function History(sandbox: string): seq<int>
      reads this
    {
      RateLimit.Accepted(Times(calls, sandbox), settings.window, settings.maxPrompts)
    }

    /** The critical section at the head of `ask`. `sender` is the identity of
        the watch channel a new leader creates. */
    method Enter(key: Key, sender: nat) returns (role: Role)
      requires Valid()
      modifies this`inflight
      ensures Valid()
      ensures key in old(inflight) ==> role == Follower(old(inflight)[key]) && Contents() == old(Contents())
      ensures key !in old(inflight) ==> role == Leader(sender) && Contents() == old(Contents()).Lead(key, sender)
    {
      if key in inflight {
        role := Follower(inflight[key]);
      } else {
        inflight := inflight[key := sender];
        role := Leader(sender);
      }
    }

    /** Accepts or refuses one more prompt. With clock reads that do not decrease
        in lock order, the answer is the full history's. */
    method CountPrompt(sandbox: string, now: int) returns (accepted: bool)
      requires Valid() && clock <= now
      modifies this`recent, this`calls, this`clock
      ensures Valid() && clock == now
      ensures var (counted, after) := old(Contents()).CountPrompt(settings, sandbox, now);
              accepted == counted && Contents() == after
      ensures accepted <==> RateLimit.InWindow(old(History(sandbox)), now, settings.window) < settings.maxPrompts
      ensures History(sandbox) == if accepted then old(History(sandbox)) + [now] else old(History(sandbox))
      ensures calls == old(calls)[sandbox := Times(old(calls), sandbox) + [now]]
    {
      CountKeepsPruned(recent, calls, clock, settings, sandbox, now);
      CountFrom(Times(recent, sandbox), Times(calls, sandbox), clock, settings, now);
      var times := PopExpired(Times(recent, sandbox), now, settings.window);
      accepted := |times| < settings.maxPrompts;
      if accepted {
        times := times + [now];
      }
      recent := recent[sandbox := times];
      calls := calls[sandbox := Times(calls, sandbox) + [now]];
      clock := now;
    }

    /** The loop of `CountPrompt`. */
    static method PopExpired(times: seq<int>, now: int, window: nat) returns (kept: seq<int>)
      ensures kept == RateLimit.Prune(times, now, window)
    {
      kept := times;
      while kept != [] && RateLimit.Elapsed(now, kept[0]) >= window
        invariant RateLimit.Prune(kept, now, window) == RateLimit.Prune(times, now, window)
        decreases |kept|
      {
        kept := kept[1..];
      }
    }

    method TakeId() returns (id: nat)
      requires Valid()
      modifies this`nextId
      ensures Valid() && id == old(nextId) + 1 && Contents() == old(Contents()).TakeId()
    {
      nextId := nextId + 1;
      id := nextId;
    }

    method List(id: nat, request: Pending)
      requires Valid()
      modifies this`pending
      ensures Valid() && Contents() == old(Contents()).List(id, request)
    {
      pending := pending[id := request];
    }

    method Unlist(id: nat)
      requires Valid()
      modifies this`pending
      ensures Valid() && Contents() == old(Contents()).Unlist(id)
    {
      pending := pending - {id};
    }

    method Release(key: Key)
      requires Valid()
      modifies this`inflight
      ensures Valid() && Contents() == old(Contents()).Release(key)
    {
      inflight := inflight - {key};
    }

    /** Takes a request off the list so that its flow can be answered; `None`
        for an id that is not listed. The flow learns of it through its own answer
        channel, which it may already have dropped. */
    method Decide(id: nat) returns (request: Option<Pending>)
      requires Valid()
      modifies this`pending
      ensures Valid() && Contents() == old(Contents()).Unlist(id)
      ensures request == if id in old(pending) then Some(old(pending)[id]) else None
    {
      if id in pending {
        request := Some(pending[id]);
        pending := pending - {id};
      } else {
        request := None;
        assert pending - {id} == pending;
      }
    }

    /** Takes every request of a retired sandbox off the list; each of the
        returned ones is answered `Cancelled`. */
    method CancelSandbox(sandbox: string) returns (cancelled: map<nat, Pending>)
      requires Valid()
      modifies this`pending
      ensures Valid() && Contents() == old(Contents()).CancelSandbox(sandbox)
      ensures cancelled.Keys == IdsOf(old(pending), sandbox)
      ensures forall id :: id in cancelled ==> cancelled[id] == old(pending)[id]
    {
      var ids := IdsOf(pending, sandbox);
      cancelled := map[];
      while ids != {}
        invariant ids <= IdsOf(old(pending), sandbox)
        invariant cancelled.Keys == IdsOf(old(pending), sandbox) - ids
        invariant forall id :: id in cancelled ==> cancelled[id] == old(pending)[id]
        invariant pending == old(pending) - cancelled.Keys
        decreases |ids|
      {
        var id :| id in ids;
        ids := ids - {id};
        cancelled := cancelled[id := pending[id]];
        pending := pending - {id};
      }
    }

    /** After this a sandbox has all its prompts again. */
    method Reset(sandbox: string)
      requires Valid()
      modifies this`recent, this`calls
      ensures Valid() && Contents() == old(Contents()).Reset(sandbox)
      ensures calls == old(calls) - {sandbox}
    {
      recent := recent - {sandbox};
      calls := calls - {sandbox};
    }
  }
}
