/** The prompt limit over whole runs: the deques that the flows share, against
    the prompts that were really counted. */
module ApprovalRate {
  import opened ApprovalQueue
  import opened ApprovalProtocol
  import RateLimit

  /** When the prompts of a sandbox were counted, since its last reset. */
  ghost function CallsOf(cfg: Settings, limited: set<Entry>, run: seq<Event>, sandbox: string): seq<int>
    requires After(cfg, limited, run).Some?
  {
    if run == [] then []
    else
      var n := |run| - 1;
      var before := CallsOf(cfg, limited, run[..n], sandbox);
      match run[n]
      case CountPrompt(t, now) => if Counts(cfg, After(cfg, limited, run[..n]).value, t, sandbox) then before + [now] else before
      case Reset(name) => if name == sandbox then [] else before
      case _ => before
  }

  predicate Counts(cfg: Settings, s: State, t: nat, sandbox: string) {
    (cfg.surface || cfg.queueHeadless) && t in s.tasks && s.tasks[t].key.sandbox == sandbox
  }

  lemma EarlyRecentStays(cfg: Settings, s: State, e: Event)
    requires e.CheckLimited? || e.Consult? || e.Enter? || e.Open? || e.List? || e.TakeScreen? || e.ShowDialog?
    requires FlowStep(cfg, s, e).Some?
    ensures FlowStep(cfg, s, e).value.queue.recent == s.queue.recent
  {
  }

  lemma LateRecentStays(cfg: Settings, s: State, e: Event)
    requires e.Unlist? || e.Release? || e.Publish? || e.Hear? || e.HearClosed? || e.Settle? || e.Drop?
    requires FlowStep(cfg, s, e).Some?
    ensures FlowStep(cfg, s, e).value.queue.recent == s.queue.recent
  {
  }

  lemma RecentStays(cfg: Settings, s: State, e: Event)
    requires Next(cfg, s, e).Some? && !e.CountPrompt? && !e.Reset?
    ensures Next(cfg, s, e).value.queue.recent == s.queue.recent
  {
    if e.CheckLimited? || e.Consult? || e.Enter? || e.Open? || e.List? || e.TakeScreen? || e.ShowDialog? {
      EarlyRecentStays(cfg, s, e);
    } else if e.Unlist? || e.Release? || e.Publish? || e.Hear? || e.HearClosed? || e.Settle? || e.Drop? {
      LateRecentStays(cfg, s, e);
    }
  }

  lemma CountRecent(cfg: Settings, s: State, t: nat, now: int, sandbox: string)
    requires CountStep(cfg, s, t, now).Some?
    ensures Times(CountStep(cfg, s, t, now).value.queue.recent, sandbox) ==
              if Counts(cfg, s, t, sandbox)
              then RateLimit.Count(Times(s.queue.recent, sandbox), now, cfg.window, cfg.maxPrompts).1
              else Times(s.queue.recent, sandbox)
  {
  }

  /** In every reachable state a sandbox's deque is what its counted prompts
      leave of it. */
  lemma {:induction false} DequeIsCalls(cfg: Settings, limited: set<Entry>, run: seq<Event>, sandbox: string)
    requires After(cfg, limited, run).Some?
    ensures Times(After(cfg, limited, run).value.queue.recent, sandbox)
            == RateLimit.After(CallsOf(cfg, limited, run, sandbox), cfg.window, cfg.maxPrompts).0
  {
    if run != [] {
      var n := |run| - 1;
      var s := After(cfg, limited, run[..n]).value;
      DequeIsCalls(cfg, limited, run[..n], sandbox);
      match run[n]
      case CountPrompt(t, now) =>
        CountRecent(cfg, s, t, now, sandbox);
        RateLimit.AfterMore(CallsOf(cfg, limited, run[..n], sandbox), now, cfg.window, cfg.maxPrompts);
      case Reset(_) =>
      case _ => RecentStays(cfg, s, run[n]);
    }
  }

  /** In every interleaving, a leader's prompt is accepted exactly when fewer
      than `maxPrompts` prompts of its sandbox were accepted in the last window,
      whoever asked for them; and no window ever held more than that many. */
  lemma PromptsAreLimited(cfg: Settings, limited: set<Entry>, run: seq<Event>, t: nat, now: int)
    requires After(cfg, limited, run).Some? && (cfg.surface || cfg.queueHeadless)
    requires t in After(cfg, limited, run).value.tasks && PcOf(After(cfg, limited, run).value, t).Counting?
    requires RateLimit.Timeline(CallsOf(cfg, limited, run, After(cfg, limited, run).value.tasks[t].key.sandbox), now)
    ensures var s := After(cfg, limited, run).value;
            var history := RateLimit.Accepted(CallsOf(cfg, limited, run, s.tasks[t].key.sandbox), cfg.window, cfg.maxPrompts);
            && RateLimit.Spaced(history, cfg.window, cfg.maxPrompts)
            && PcOf(CountStep(cfg, s, t, now).value, t) ==
                 if RateLimit.InWindow(history, now, cfg.window) < cfg.maxPrompts then Opening(s.tasks[t].pc.channel)
                 else Releasing(s.tasks[t].pc.channel, RateLimited)
  {
    var s := After(cfg, limited, run).value;
    var sandbox := s.tasks[t].key.sandbox;
    DequeIsCalls(cfg, limited, run, sandbox);
    RateLimit.LimiterRefinesHistory(CallsOf(cfg, limited, run, sandbox), now, cfg.window, cfg.maxPrompts);
  }
}
