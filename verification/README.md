# Verified model of the microkitchen egress broker

The egress broker decides, asks a human about, and relays every network flow of
every sandbox. This project models its decision path and proves what it promises:
which answers a flow can get, who is asked and how often, what an answer leaves
behind, what a UDP association sends, what the binding store remembers, how wire
formats decode, and where staged host files land.

`dafny verify dfyconfig.toml` checks everything.

## How the model is laid out

| file | component |
|---|---|
| `collections.dfy`, `net.dfy`, `grammar.dfy`, `hostpat.dfy` | shared facts, addresses, the hostname grammar, rule patterns |
| `decision.dfy`, `decision_laws.dfy`, `hard_denies.dfy`, `rule_matches.dfy` | the decision engine and its laws, and what rules match |
| `edit.dfy`, `answers.dfy`, `registry.dfy`, `later_flows.dfy`, `admissions.dfy` | editing rule lists, applying an operator's answer, the broker around both, what an answer does to later flows, and who passes |
| `rules.dfy` | the rule files' stamp cache |
| `approval_limiter.dfy`, `approval_queue.dfy` | the prompt limit and the approval queue's lock regions |
| `approval_protocol.dfy`, `approval_coalescing.dfy`, `approval_prompts.dfy`, `approval_outcomes.dfy`, `approval_runs.dfy` | admissions as concurrent flows: steps and invariants |
| `approval_theorems.dfy`, `approval_answers.dfy`, `approval_endings.dfy`, `approval_returns.dfy`, `approval_rounds.dfy`, `approval_limits.dfy`, `approval_rate.dfy`, `approval_overlaps.dfy` | theorems over every run: coalescing, prompts and how they end, what flows return, rounds, limits, overlapping admissions |
| `broker_runs.dfy`, `broker_answers.dfy`, `broker_verdicts.dfy` | the queue's steps together with the rules that decide and the answers that are written |
| `binding_log.dfy`, `binding_lives.dfy`, `bindings.dfy` | histories of a sandbox's bindings, what they say is bound, and the bounded store |
| `observer.dfy`, `provenance.dfy` | what DNS answers teach the store, and where a flow's names come from |
| `socks5.dfy`, `udp.dfy` | the SOCKS5 wire format and the UDP relay |
| `staging.dfy`, `staging_requests.dfy`, `staging_exact.dfy` | the staging plan for host files, what each request gets of it, and what exactly is planned |

Objects that the broker updates in place are classes whose methods are proved
against functions on their contents; the laws are lemmas about those functions.
The approval queue is additionally a state machine: each lock region and each
await point is one step of `ApprovalProtocol.Next`, flows have program counters,
watch channels are numbers, and a theorem about "every run" ranges over every
finite interleaving of flows, operators, retirements and timeouts. There the
rules' verdict on a flow is any; `BrokerRuns.Step` adds what is stored, so that a
flow is decided by it and an answer changes it.

## What turned out to be conditional

These promises hold under a condition only. Each is proved as an equivalence, for
all inputs, and comes with an input for which the promise fails.

- *A flow makes as many rounds as there are flows that ask, at most.* A flow that is dropped while it
  leads (crates/microkitchen/lib/broker/mediator/tcp.rs:47-53) leaves its key in `inflight`. A flow about to
  ask can be kept going around the loop without end exactly when a leader of its
  own key was dropped (`ApprovalRounds.RoundsUnboundedIff`; `ApprovalTheorems.StaleKeyIffDroppedLeader`
  for the key). `ApprovalRounds.TwoFlowsSpin` is a run with any number of rounds.
- *A prompt is on the list while its flow waits for it.* A dropped leader also leaves its id on the list, until it
  is answered or the sandbox is retired (`ApprovalAnswers.LeftBehindIff`, `ApprovalAnswers.DropLeavesPrompt`).
- *An answer decides the flow from then on.* It does exactly when every candidate is covered by what
  was written down or still has a verdict of its own (`Answers.AllowSticksIff`,
  `Answers.DenySticksIff`, `Answers.TempSticksIff`). A query name that ends in a
  number is no rule, so an answer about it is lost
  (`Answers.NumericNamesAreForgotten`); a temporary allow can end before its time
  when another name of the address was passing on an older grant
  (`Answers.TempEndsWithOlderGrant`).
- *Cached rules are what the file says.* For every history of a file this holds in all
  interleavings exactly when no reader can see one version's stamp, read a version
  with other rules, and meet the first stamp again at the end (`RuleCache.CacheAgreesIff`,
  `RuleCache.QuietCallsRereadIff`). A file swapped out and restored is such a history
  (`RuleCache.SwapMisleads`).
- *Rewrites stay correct when nested sources are dropped* (crates/microkitchen/lib/config/staging.rs:480-482).
  They do exactly when the covering ancestor lies strictly under the kitchen
  directory (`Staging.KeptHolds`, `Staging.OutsideAncestorDangles`); the model follows the code.
- *An expired binding is forgotten.* A chain is bound to an address exactly when some record of it was not
  followed by a lookup that found the address expired (`BindingLog.ChainsAreRemembered`), so recording
  for an expired address brings back exactly the chains that no lookup has dropped
  (`BindingLog.ExpiredChainsReviveIff`, `BindingLog.OldChainRevives`).

- *A flow is not asked about again once it was answered.* The same admission is not when its answer sticks
  (`Registry.AskedOnce`). Any other flow of the sandbox, also one that would share the prompt, is decided part by part by
  what was stored before and the answer together, and asked about exactly when they leave it open
  (`LaterFlows.LaterFlowIff`): with the same names but other aliases (`LaterFlows.AliasesAskAgain`), or
  after a temporary allow has expired (`LaterFlows.ExpiredTempAsksAgain`). And a key leaves `inflight` before its
  answer is written down. Over runs, a flow can come to ask on its own after an answer exactly when no leader of its
  key was dropped, and it has yet to consult and is left open at some later time, or was sent to ask already, or
  follows a leader that was cancelled or can be (`BrokerAnswers.AskedAfterAnswerIff`, `ApprovalOverlaps.CanLeadIff`;
  `ApprovalOverlaps.OverlapAsksAgain` is a run).

Registering a sandbox anew with other parameters retires the old registration
first, so it is gone even when registering fails, and a tripped rate limit goes
with it (`Registry.Broker.Register`).

## Assumptions

- Clock readings do not decrease in lock order: the limiter reads the clock
  before it takes the lock (crates/microkitchen/lib/broker/approval.rs:242-244). `RateLimit.Timeline` and
  `BindingLog.Monotone` state this where a theorem needs it.
- The standard library's address text is an `IpText` with the four facts of
  `HostPatterns.Faithful`; `HostPatterns.FaithfulTextExists` shows they can be met.
- A `char` of a name stands for one byte.
- A rule file is read in one piece, as its writers replace it in one piece.

## Model

| member | source | states |
|---|---|---|
| ApprovalTheorems.CoalescingIsExclusive | crates/microkitchen/lib/broker/approval.rs:143-165 | In every reachable state, dropped leaders included, a key is in flight exactly when one flow leads or was dropped leading it and has not removed it; that flow is unique, and the key's channel is its own |
| ApprovalTheorems.StaleKeyIffDroppedLeader | crates/microkitchen/lib/broker/mediator/tcp.rs:47-53 | A key in flight has no live leader exactly when its leader was dropped while it waited |
| ApprovalTheorems.NoDropsMeansLiveLeader | crates/microkitchen/lib/broker/approval.rs:143-165 | In runs that drop no waiting leader, a key in flight always has one live leader |
| ApprovalTheorems.AbandonedIffDropped | crates/microkitchen/lib/broker/mediator/tcp.rs:47-53 | Over whole runs a flow is an abandoned leader exactly when some step dropped it while it waited |
| ApprovalTheorems.OnePromptOneDialog | crates/microkitchen/lib/broker/approval.rs:301-320 | Two flows never both wait on a prompt for one key, never share a prompt id, and never both have a dialog on screen at once, across all sandboxes |
| ApprovalTheorems.FollowersAgree | crates/microkitchen/lib/broker/approval.rs:162-176 | A flow that never led returns its own cancellation, or exactly the non-cancelled outcome that the owner of a channel it followed returned, for the same key |
| ApprovalRounds.RoundsAreBounded | crates/microkitchen/lib/broker/approval.rs:143-176 | In every run that drops no waiting leader of the flow's own key, every round of the flow but the one it leads follows a new channel, and it makes no more rounds than there are flows that asked for its key |
| ApprovalRounds.DeadIffDropped | crates/microkitchen/lib/broker/approval.rs:143-176 | A key is held by a dropped leader exactly when some step of the run dropped a waiting leader of it; nothing frees it again |
| ApprovalRounds.DeadKeySpins | crates/microkitchen/lib/broker/approval.rs:167-176 | In every reachable state a flow whose key is held by a dropped leader can make any number of rounds by its own steps, while nothing else changes |
| ApprovalRounds.RoundsUnboundedIff | crates/microkitchen/lib/broker/approval.rs:143-176 | From a reachable state a flow about to ask can reach any number of rounds, with no new flows and no further leader of its key dropped, exactly when a leader of its key was dropped before |
| ApprovalRate.PromptsAreLimited | crates/microkitchen/lib/broker/approval.rs:156-161 | In every interleaving a leader's prompt is accepted exactly when fewer than the limit of its sandbox's prompts were accepted in the last window since its last reset, and any limit + 1 accepted prompts span at least the window |
| ApprovalRate.DequeIsCalls | crates/microkitchen/lib/broker/approval.rs:241-257 | In every reachable state a sandbox's deque is what the prompts counted since its last reset leave of it |
| ApprovalRounds.TwoFlowsSpin | crates/microkitchen/lib/broker/approval.rs:167-176 | For every n a run of two flows with one key in which the second has made n rounds |
| ApprovalTheorems.AdmissionsAreJustified | crates/microkitchen/lib/broker/registry.rs:402-490 | A flow admitted in any run passed the limit check at an earlier step, and was allowed by the stored rules, or by an Allow or Temp that a human gave to this flow's own prompt or to that of the leader whose channel it followed and which returned the same outcome |
| ApprovalAnswers.AnsweredAtMostOnce | crates/microkitchen/lib/broker/approval.rs:182-187 | `decide` reaches the flow of a prompt id in at most one step of a run |
| ApprovalAnswers.OneOutcomePerPrompt | crates/microkitchen/lib/broker/approval.rs:286-296 | Exactly one step of a run ends a prompt, for one flow and with one outcome; which steps do, and with which outcome, is `ApprovalEndings` |
| ApprovalEndings.EndsAnsweredIff | crates/microkitchen/lib/broker/approval.rs:286-296 | After every run and for every next step: a prompt ends with Allow, Deny or Temp exactly when its flow waits on it and that answer is given in its dialog, which a step of the run put on screen, or is received, being the first answer or cancellation that anybody gave for it since the flow waits |
| ApprovalEndings.EndsDismissedIff | crates/microkitchen/lib/broker/approval.rs:286-296 | Likewise it is dismissed exactly by its time-out, by a dialog that misses its deadline before it appears, or by the human closing the dialog |
| ApprovalEndings.EndsCancelledIff | crates/microkitchen/lib/broker/approval.rs:286-296 | Likewise it is cancelled exactly when its flow began cancelled, gave up or lost its registration and observes it, or when the requests of its sandbox were cancelled before anybody answered |
| ApprovalEndings.CancelledIff | crates/microkitchen/lib/broker/registry.rs:243-253 | A flow's token is cancelled exactly when it began so, its source gave up, or its registration was retired after it began |
| ApprovalEndings.DialogStepsIff | crates/microkitchen/lib/broker/approval.rs:301-320 | With a surface, a waiting flow's dialog takes the screen exactly when it has not been up yet and no flow of any sandbox has one there, and appears exactly once after that |
| ApprovalEndings.DropsIff | crates/microkitchen/lib/broker/mediator/tcp.rs:47-53 | A flow can be dropped exactly when it began as a TCP flow and waits for an answer or for a leader |
| ApprovalReturns.CarriesIff | crates/microkitchen/lib/broker/approval.rs:137-180 | Over every run a flow carries or returned an outcome exactly when some step of the run gave it that: its prompt ended with it, the limit refused it, nobody could answer, it was cancelled while it followed, or its leader published it and was not cancelled |
| ApprovalReturns.AskedFlowReturns | crates/microkitchen/lib/broker/registry.rs:468-490 | A flow that was asked about returned true exactly when a step of the run gave it an Allow or a Temp |
| ApprovalReturns.NoFlowIsStuck | crates/microkitchen/lib/broker/approval.rs:137-180 | In every reachable state a flow that has neither returned nor been dropped has a step of its own, or follows a leader that has one |
| ApprovalAnswers.OutcomeIsReturned | crates/microkitchen/lib/broker/approval.rs:286-296 | The outcome that ended a prompt is the one its flow carries and returns at every later step |
| ApprovalAnswers.LeftBehindIff | crates/microkitchen/lib/broker/approval.rs:270-297 | An id is listed for a flow that was dropped exactly when some step dropped the flow while it waited with the id listed, and no later step answered the id or cancelled the sandbox's requests |
| ApprovalAnswers.DropLeavesPrompt | crates/microkitchen/lib/broker/approval.rs:270-297 | A run that leaves an id on the list for a flow that is gone |
| ApprovalAnswers.WaitersAreListedOrAnswered | crates/microkitchen/lib/broker/approval.rs:270-297 | A waiting flow's id is on the list under its own sandbox, or its answer has arrived or been cancelled |
| ApprovalLimits.EachTripIsAnnouncedOnce | crates/microkitchen/lib/broker/registry.rs:510-520 | Per registration, the notifications of a run number exactly the steps that put its limit in force, and those and the restored limit account for every lift and the limit now |
| ApprovalLimits.RefusalsTrip | crates/microkitchen/lib/broker/registry.rs:473-475 | Every flow that asking refused for its rate has a step of its own at which it was refused, right after which its registration's limit is in force |
| ApprovalLimits.LimitedUntilResumed | crates/microkitchen/lib/broker/registry.rs:266-275 | Once limited, a registration stays so at every later step before its resume |
| ApprovalLimits.LimitedIff | crates/microkitchen/lib/broker/registry.rs:510-520 | Over every run a registration is limited exactly when a restart restored it so or a flow of it that was refused for its rate settled, and nobody resumed it since |
| ApprovalLimits.LimitedFlowsAreRefused | crates/microkitchen/lib/broker/registry.rs:402-405 | A flow whose check comes between a limit and its resume returns false without being asked about, and stays so in every continuation, a resume included |
| ApprovalCoalescing.StepKeeps | crates/microkitchen/lib/broker/approval.rs:137-180 | Every step of every flow, operator and retirement keeps leaders, channels, keys and followers in order |
| ApprovalCoalescing.ReleaseKeeps | crates/microkitchen/lib/broker/approval.rs:162-162 | The removal takes out the leader's own channel and nobody else's |
| ApprovalPrompts.StepKeeps | crates/microkitchen/lib/broker/approval.rs:259-320 | Every step keeps ids fresh and unique, the list and the answers with their flows, and the screen with one dialog |
| ApprovalOutcomes.StepJustified | crates/microkitchen/lib/broker/approval.rs:182-297 | Every step keeps every allowing outcome on its way traceable to a human's answer for the prompt of the flow that carries or published it |
| RateLimit.LimiterRefinesHistory | crates/microkitchen/lib/broker/approval.rs:241-257 | Over every run of calls with a nondecreasing clock the pruned deque accepts exactly the prompts that find fewer than the limit of accepted ones in the window, and any limit + 1 accepted prompts span at least the window |
| RateLimit.CountRefines | crates/microkitchen/lib/broker/approval.rs:241-257 | One call keeps the deque a suffix of the full history with everything before it outside the window |
| ApprovalQueue.ApprovalQueue.Enter | crates/microkitchen/lib/broker/approval.rs:143-154 | Follows the key's leader if there is one, else becomes it |
| ApprovalQueue.ApprovalQueue.CountPrompt | crates/microkitchen/lib/broker/approval.rs:241-257 | The loop over the deque answers as the unpruned history of the sandbox does, and the history gains exactly the accepted prompt |
| ApprovalQueue.ApprovalQueue.Decide | crates/microkitchen/lib/broker/approval.rs:182-187 | Takes the request off the list and returns it, or reports that it no longer exists |
| ApprovalQueue.ApprovalQueue.CancelSandbox | crates/microkitchen/lib/broker/approval.rs:190-204 | Takes exactly the sandbox's requests off the list and returns them to be cancelled |
| Registry.AskedOnce | crates/microkitchen/lib/broker/registry.rs:380-556 | After an answered prompt the same admission gets the answered verdict from what is stored, is not asked about again and changes nothing, when nothing stored stands against the answer and it can be written down |
| ApprovalOverlaps.CanLeadIff | crates/microkitchen/lib/broker/approval.rs:137-180 | From every reachable state, whatever was answered and whatever the rules say of flows that have yet to consult, a flow leads in some continuation exactly when no leader of its key was dropped, and it has not asked yet or follows a leader that was cancelled or still can be |
| LaterFlows.LaterFlowIff | crates/microkitchen/lib/broker/registry.rs:524-556 | After any outcome was applied, any flow of the sandbox is allowed (denied) exactly when each of its parts is, in terms of what was stored before: allowed already, or covered by an Allow and denied by no other kitchen rule, or under a grant of the Temp until it expires; and correspondingly denied |
| LaterFlows.AliasesAskAgain | crates/microkitchen/lib/broker/registry.rs:436-451 | Two flows with one subject and port: after Allow for the first, which would stick, the second is asked about, whatever it is answered |
| LaterFlows.ExpiredTempAsksAgain | crates/microkitchen/lib/broker/registry.rs:546-553 | A flow that is asked about again once its temporary allow expired |
| BrokerRuns.TraceIsARun | crates/microkitchen/lib/broker/registry.rs:402-490 | Every run of the whole broker, in which stored rules decide flows and answers change the rules, is a run of the approval queue, so that every theorem about those holds of it |
| BrokerAnswers.StepsAreOneAdmission | crates/microkitchen/lib/broker/registry.rs:402-490 | A flow's consultation that asks and its settling, with any steps of others between that leave its rules and grants as consulted, return and store what one admission with the flow's outcome does |
| BrokerAnswers.CanAskIff | crates/microkitchen/lib/broker/registry.rs:402-490 | From every reachable state of the broker, with no further writes, a flow comes to lead in some continuation exactly when the queue lets it and, if it has yet to consult, what is stored leaves it open at some later time |
| BrokerAnswers.AskedAfterAnswerIff | crates/microkitchen/lib/broker/registry.rs:402-490 | The same right after any flow of the registration settled, with "leaves it open" in terms of what was stored before and the outcome |
| ApprovalOverlaps.OverlapAsksAgain | crates/microkitchen/lib/broker/approval.rs:156-165 | A run in which the second of two overlapping flows of one key leads after the first one's answer was written down |
| Registry.SharedSubjectIff | crates/microkitchen/lib/broker/registry.rs:436-451 | Two flows share a prompt's subject exactly when they ask about the same query names in order, or the same unresolved address, or one about a single name that spells the other's address |
| BrokerVerdicts.SharedPromptIff | crates/microkitchen/lib/broker/registry.rs:436-451 | Two flows share a prompt exactly when their sandboxes have one name, they go to one port, and they share the subject |
| Registry.Broker.Admit | crates/microkitchen/lib/broker/registry.rs:380-490 | One admission, of a claimed name as the only candidate and else of what the lookup gave: refused when limited, else decided on the stored rules, else the outcome of asking is applied, and a tripped limit announced once; who passes is `Admissions.AdmittedIff` |
| Admissions.AdmittedIff | crates/microkitchen/lib/broker/registry.rs:380-490 | Every admission: a limited sandbox refuses it and changes nothing; else it passes or is refused unasked exactly when the mode, the entries of the kitchen file, the built-in name, the global layers and the grants say so for every candidate; else it is asked about and passes exactly on an Allow or a Temp |
| Admissions.ClaimedNameIff | crates/microkitchen/lib/broker/registry.rs:391-394 | In enforce mode, outside the hard denies, an unlimited flow that claims a name passes unasked exactly when the first of the kitchen file and the global layers that says anything about the name or the address allows it, or none does and a live grant is for that name; and is refused unasked exactly when the first denies it |
| Admissions.KindIff | crates/microkitchen/lib/broker/decision.rs:192-251 | A prompt is about an unresolved address exactly when there are no candidates, about unknown names exactly when what is stored leaves all of them open, and else lists each candidate in order with what is stored about it |
| Admissions.SubjectsIff | crates/microkitchen/lib/broker/decision.rs:102-119 | What an answer is about: the address when there are no candidates, else exactly the query names, as far as they parse, of the candidates that what is stored neither allows nor denies |
| Admissions.AnswerIsWritten | crates/microkitchen/lib/broker/registry.rs:468-556 | After any admission that was asked about: Allow and Deny move exactly the rules it is about into their list and out of the other unless the file cannot be edited, Temp grants exactly their keys until it expires, and nothing else changed but a limit that tripped |
| Admissions.GrantsIff | crates/microkitchen/lib/broker/registry.rs:546-553 | A Temp grants exactly the exact names and the addresses among its subjects until it expires, also over an older grant, and leaves every other grant |
| Admissions.AmbiguousIff | crates/microkitchen/lib/broker/decision.rs:216-251 | A decision is marked ambiguous exactly when it was made on several candidates |
| BrokerVerdicts.FlowsAreBroughtIn | crates/microkitchen/lib/broker/registry.rs:389-401 | Over every run of the broker each flow's admission is for the canonical address and port that it arrived with, and for the name that it claimed or else what the bindings gave |
| BrokerVerdicts.UnaskedIff | crates/microkitchen/lib/broker/registry.rs:402-446 | Over every run of the broker a flow returned true unasked exactly when what was stored at its consultation allowed it, and false unasked exactly when it was checked under its limit or what was stored at its consultation denied it |
| BrokerVerdicts.OthersKeepTheirs | crates/microkitchen/lib/broker/registry.rs:524-556 | Settling a flow changes nothing for any other registration but the kitchen file they share |
| Registry.Broker.Apply | crates/microkitchen/lib/broker/registry.rs:524-556 | Allow and Deny move every subject into their list, Temp grants every subject that has a session key, nothing else changes anything |
| Registry.Broker.Register | crates/microkitchen/lib/broker/registry.rs:165-240 | A compatible registration keeps its object, limit and grants and changes mode; any other is retired first and replaced only when a secret and ports are there |
| Registry.Broker.Retire | crates/microkitchen/lib/broker/registry.rs:243-253 | Cancels the flows, takes the sandbox's requests off the list and forgets its prompt history |
| Registry.Broker.Resume | crates/microkitchen/lib/broker/registry.rs:266-275 | Lifts the limit, reports whether it was set, and leaves an empty prompt history |
| Registry.Broker.Grant | crates/microkitchen/lib/broker/registry.rs:278-293 | Grants a host name or address under its session key, and refuses anything else without changing the session |
| Answers.AllowSticksIff | crates/microkitchen/lib/broker/registry.rs:526-545 | After Allow the flow is allowed exactly when each candidate still has an allowing verdict, or is covered by the new rules and not denied by the kitchen file |
| Answers.DenySticksIff | crates/microkitchen/lib/broker/registry.rs:526-545 | After Deny the flow is denied exactly when each candidate has a denying verdict or is covered by the new rules |
| Answers.TempSticksIff | crates/microkitchen/lib/broker/registry.rs:546-553 | Until a temporary allow expires the flow is allowed exactly when no candidate is denied by a rule and each without a rule has a live grant |
| Answers.AllowSticks | crates/microkitchen/lib/broker/decision.rs:102-119 | With no denied candidate and exact query names, an allowed flow stays allowed while the grants it leaned on last |
| Answers.DenySticks | crates/microkitchen/lib/broker/decision.rs:102-119 | With no allowed candidate and exact query names, a denied flow stays denied at every time |
| Answers.TempSticks | crates/microkitchen/lib/broker/registry.rs:546-553 | A temporary allow holds until it expires or an older grant of another candidate does |
| Answers.UnresolvedSticks | crates/microkitchen/lib/broker/decision.rs:192-213 | For an address that was never resolved every answer sticks |
| Answers.NumericNamesAreForgotten | crates/microkitchen/lib/config/hostpat.rs:112-116 | A flow to a name that ends in a number is asked about, and every answer leaves rules and grants as they were |
| Answers.TempEndsWithOlderGrant | crates/microkitchen/lib/broker/decision.rs:94-96 | A flow whose temporary allow has not expired is asked about again once another candidate's older grant has |
| Answers.SetAllMoves | crates/microkitchen/lib/broker/registry.rs:531-543 | Applying all subjects puts each into its list and out of the other and leaves every other rule alone |
| Decision.DecisionIsUnanimous | crates/microkitchen/lib/broker/decision.rs:216-251 | In enforce mode a flow with candidates is allowed (denied) exactly when every candidate's first layer that says anything, or else the session, says so |
| Decision.RuleVerdictIs | crates/microkitchen/lib/broker/decision.rs:256-280 | The walk over layers finds the first layer that says anything, deny before allow |
| DecisionLaws.DenyRulesNeverAllow | crates/microkitchen/lib/broker/decision.rs:256-280 | Adding deny rules anywhere never creates an Allow |
| DecisionLaws.AllowRulesNeverDeny | crates/microkitchen/lib/broker/decision.rs:256-280 | Adding allow rules anywhere never creates a Deny |
| DecisionLaws.MoreCandidatesNeverDecide | crates/microkitchen/lib/broker/decision.rs:216-251 | More candidates for a flow that has some never turn another decision into Allow or into Deny |
| DecisionLaws.UnrelatedRulesDoNotMatter | crates/microkitchen/lib/broker/decision.rs:159-280 | Deleting rules that match neither the address nor a candidate name leaves the whole decision as it was, reason and prompt included |
| DecisionLaws.ReasonsAreHonest | crates/microkitchen/lib/broker/decision.rs:159-280 | The rule a decision names is the first match of the list and the layer it says, that layer is the first that says anything about the flow's first candidate, and every other reason is true of the flow |
| Net.CanonicalIs | crates/microkitchen/lib/broker/decision.rs:172-172 | Exactly the IPv4-mapped addresses change their form, each to the IPv4 address it holds |
| HardDenies.HardDeniedRanges | crates/microkitchen/lib/broker/decision.rs:126-141 | Exactly the addresses of eight ranges are hard-denied, in plain or IPv4-mapped form |
| HardDenies.OnlyHardDeniesAreFinal | crates/microkitchen/lib/broker/decision.rs:166-191 | Some mode, rules and grants let a flow through exactly when its request is well formed and its address is in none of those ranges; and any other flow is denied, never asked about, in every mode and with all rules and grants |
| HardDenies.OpenModeIff | crates/microkitchen/lib/broker/decision.rs:166-184 | In open mode, for all rules, grants, candidates and times: a flow is allowed exactly when it is well formed and in none of the ranges, else denied, never asked about, and the decision is the same for any two rule sets, grants, candidates and times |
| HardDenies.ContainsByOctets | crates/microkitchen/lib/config/hostpat.rs:78-85 | A range holds the addresses of its family that share its whole octets and the leading bits of the next |
| RuleEdits.Document.RemoveFrom | crates/microkitchen/lib/config/edit.rs:239-275 | The backward removal loop leaves the list without the entries that are the rule, in order, and says whether there were any |
| RuleEdits.Document.SetRule | crates/microkitchen/lib/config/edit.rs:162-196 | Fails exactly when a list is not an array; else the rule is in its list once more only if it was not there, and gone from the other |
| RuleEdits.Document.RemoveRule | crates/microkitchen/lib/config/edit.rs:198-232 | Takes the rule out of both lists and names the lists that held it |
| RuleEdits.RuleFile.SetNetworkRule | crates/microkitchen/lib/config/edit.rs:76-91 | The file changes exactly when the edit succeeded and changed something |
| RuleEdits.SetRuleMoves | crates/microkitchen/lib/config/edit.rs:162-196 | A printable rule is then in its list, out of the other, and every other rule is where it was |
| RuleEdits.SetRuleTwice | crates/microkitchen/lib/config/edit.rs:64-68 | Setting a rule again reports no change and makes none |
| RuleEdits.NoopChangesNothing | crates/microkitchen/lib/config/edit.rs:142-160 | An edit that reports no change made none, so not writing loses nothing |
| RuleEdits.ChangeTells | crates/microkitchen/lib/config/edit.rs:162-196 | The report says added exactly when the rule's list changed, by the rule at its end, and removed from the other exactly when that changed |
| RuleEdits.RevokeRemoves | crates/microkitchen/lib/config/edit.rs:198-232 | Revoking takes the rule out of both lists and leaves every other rule's membership |
| RuleEdits.RevokeUndoesSet | crates/microkitchen/lib/config/edit.rs:198-232 | Revoking after setting leaves in both lists what revoking without setting would have; the tables are equal except that a list that had no key stays behind empty |
| RuleCache.CacheAgreesIff | crates/microkitchen/lib/broker/rules.rs:95-131 | For every history of a file: in all interleavings of its writer and of calls that have this history, a cached stamp that is the file's comes with what the file says, exactly when no version between a stamp and its recurrence at the end is valid with other rules |
| RuleCache.QuietCallsRereadIff | crates/microkitchen/lib/broker/rules.rs:95-131 | For every history: calls with no write since their metadata read give the file's rules in all interleavings exactly when the history is harmless or its last version is invalid |
| RuleCache.FreshStampsAgree | crates/microkitchen/lib/broker/rules.rs:107-112 | When no two versions of a file share a stamp, cached rules under the file's stamp are what it says, in every interleaving |
| RuleCache.QuietCallRereads | crates/microkitchen/lib/broker/rules.rs:95-131 | A call with no write since its metadata read, in a harmless history, returns the file's rules, none for a missing global file, and else what the previous call returned |
| RuleCache.NeverBehind | crates/microkitchen/lib/broker/rules.rs:95-131 | With every version valid since its metadata read, and a harmless history up to there, a call returns the rules of one of those versions, whatever other calls cached |
| RuleCache.SwapMisleads | crates/microkitchen/lib/broker/rules.rs:107-112 | For any two versions that parse differently, a file swapped from one to the other and back has an interleaving that leaves the other's rules in force |
| RuleCache.RuleSource.constructor | crates/microkitchen/lib/broker/rules.rs:74-91 | Before its first read a kitchen's source says only the built-in name, and the global one nothing |
| RuleCache.RuleSource.Current | crates/microkitchen/lib/broker/rules.rs:95-131 | What one call returns and caches, given what its reads gave |
| Bindings.BindingStore.Record | crates/microkitchen/lib/broker/bindings.rs:61-95 | At most capacity entries remain; at most one address is evicted, and only one that capacity others were seen no earlier than; the store goes on simulating the unbounded one, of which `BindingLives` tells what it holds |
| Bindings.BindingStore.Lookup | crates/microkitchen/lib/broker/bindings.rs:98-110 | Returns part of what the unbounded store would, all of it unless the address was evicted, only chains recorded for that canonical address, and all that a record left unexpired if fewer than capacity other addresses were used since each last use |
| Bindings.BindingLifetime | crates/microkitchen/lib/broker/bindings.rs:20-22 | With a clock that does not go back, a binding expires between an hour and a day after its last use |
| BindingLog.RecordedLasts | crates/microkitchen/lib/broker/bindings.rs:61-77 | A recorded chain is found for its time to live and at least an hour; for a new address exactly that long, and a day at most |
| BindingLives.LiveIff | crates/microkitchen/lib/broker/bindings.rs:61-110 | For every history, clocks that go back included: the unbounded store holds an address at a time exactly when, since a lookup last missed it, some record's time to live, clamped to an hour and a day, has not passed, or some lookup found it less than an hour ago |
| BindingLives.FoundIff | crates/microkitchen/lib/broker/bindings.rs:98-110 | For every history a lookup returns exactly the chains recorded since the address was last missed, while it is held |
| BindingLives.NothingIsTakenAway | crates/microkitchen/lib/broker/bindings.rs:70-76 | A record, or a lookup that finds its address, takes away no chain that any address would have at any time, and keeps their order |
| BindingLog.LookupRefreshes | crates/microkitchen/lib/broker/bindings.rs:98-110 | What a lookup returned is found for another hour |
| Bindings.RecordedSimulates | crates/microkitchen/lib/broker/bindings.rs:61-77 | Recording keeps the bounded store within the unbounded one and equal on addresses that were not evicted |
| Bindings.LookedUpSimulates | crates/microkitchen/lib/broker/bindings.rs:98-110 | So does looking up; an address the unbounded store forgets is in step again |
| Bindings.RecordRetains | crates/microkitchen/lib/broker/bindings.rs:61-95 | Recording, evictions included, keeps everything that an unbounded store started at any earlier record would remember of an address, as long as fewer than capacity other addresses were used since its last use |
| BindingLog.ChainsAreRemembered | crates/microkitchen/lib/broker/bindings.rs:61-110 | For every history: a chain is bound to an address exactly when some record of it was not followed by a lookup that found the address not live |
| BindingLog.ExpiredChainsReviveIff | crates/microkitchen/lib/broker/bindings.rs:67-76 | For every history after which an address is not live: recording another chain brings back an earlier one exactly when no lookup dropped it since its record |
| BindingLog.OldChainRevives | crates/microkitchen/lib/broker/bindings.rs:67-76 | Two records of one address, the second after the first expired, after which both chains are found |
| Observer.ChainIs | crates/microkitchen/lib/broker/observer.rs:55-95 | For any answer section, cyclic ones included, the chain has no name twice, begins with the query name and its full path of first aliases, and as a set is the query name and what the section mentions |
| Observer.FirstAliasIff | crates/microkitchen/lib/broker/observer.rs:57-64 | The alias that is followed from a name is that of the first record of the section whose owner and target are both host names and whose owner is the name |
| Observer.PushedInOrder | crates/microkitchen/lib/broker/observer.rs:65-95 | Names past the path of aliases, and those of a hint, stand in the order in which they first came |
| Observer.LearnsExactly | crates/microkitchen/lib/broker/observer.rs:97-139 | Exactly every address record's address is bound to the whole chain and every hint to its own names |
| Observer.HintNamesAre | crates/microkitchen/lib/broker/observer.rs:103-116 | A hint is bound once to each valid one of query, owner and target |
| Observer.NormalizedIsExact | crates/microkitchen/lib/broker/observer.rs:317-322 | A learned name is valid and in lower case and, unless it passes for an address or ends in a number, an exact rule spelled alike |
| Observer.NormalizesIff | crates/microkitchen/lib/broker/observer.rs:317-322 | A DNS name normalizes exactly when it is an LDH name followed by any number of dots, and then to that name in lower case |
| Observer.FollowAliases | crates/microkitchen/lib/broker/observer.rs:73-85 | The loop over aliases terminates with the path of first aliases |
| Observer.ExtractBindings | crates/microkitchen/lib/broker/observer.rs:49-140 | What a response teaches: nothing when it does not decode, else its records and hints with the chain |
| Provenance.RecordDns | crates/microkitchen/lib/broker/registry.rs:114-124 | A response records exactly what it teaches, in order, in the sandbox's store |
| Provenance.Candidates | crates/microkitchen/lib/broker/registry.rs:391-397 | A claimed name is the only candidate and leaves the store alone; else the candidates are what the store returns for the address, and the lookup is recorded |
| Provenance.Admit | crates/microkitchen/lib/broker/registry.rs:380-490 | One admission with its lookup: of the claimed name as the only candidate, which leaves the store alone, or of what the store gave for the canonical address |
| Provenance.RecordedIffTaught | crates/microkitchen/lib/broker/registry.rs:114-124 | Over every history of responses and flows, the store was told to bind a chain to an address exactly when a record of some response teaches it |
| Provenance.HistoryIsExact | crates/microkitchen/lib/broker/registry.rs:114-124 | The store's history holds exactly the lookups of flows without a name, and the records that responses taught, each with their names, time to live and time |
| Provenance.NamesComeFromResponses | crates/microkitchen/lib/broker/registry.rs:380-414 | A name rule decides a flow only through its claimed name or a name that a response to this sandbox bound to its address; and so does a temporary allow, unless it is for the address itself |
| Socks5.ParsesExactlyEncodings | crates/microkitchen/lib/broker/mediator/socks5.rs:154-196 | A packet parses to an address and payload exactly when it is their encoding (section 7 of RFC 1928), for every byte string |
| Socks5.OnTheWire | crates/microkitchen/lib/broker/mediator/socks5.rs:206-218 | The layouts byte by byte: ports high byte first, the type codes 1, 3 and 4, and the versions 5 and 1 |
| Socks5.DropsExactly | crates/microkitchen/lib/broker/mediator/socks5.rs:154-196 | For every byte string that does not parse, which complaint it gets: cut short, reserved bytes, a fragment, an unknown address type, or a bad name, the first that applies |
| Socks5.RefusesExactly | crates/microkitchen/lib/broker/mediator/socks5.rs:112-145 | The same for requests, where the port has to have come before the name is judged |
| Socks5.EndpointsParse | crates/microkitchen/lib/broker/mediator/socks5.rs:199-218 | Decoding undoes encoding for every endpoint and payload |
| Socks5.AcceptedReencodes | crates/microkitchen/lib/broker/mediator/socks5.rs:154-196 | An accepted packet re-encodes to the same bytes |
| Socks5.DomainsParse | crates/microkitchen/lib/broker/mediator/socks5.rs:185-193 | A domain packet gives the name in lower case, or the grammar's complaint |
| Socks5.ReadsExactlyRequests | crates/microkitchen/lib/broker/mediator/socks5.rs:112-145 | A request is read exactly when the stream starts with one (section 4 of RFC 1928), and the rest of the stream is left |
| Socks5.ReadsExactlyGreetings | crates/microkitchen/lib/broker/mediator/socks5.rs:84-93 | The same for the client's method list |
| Socks5.ReadsExactlyCredentials | crates/microkitchen/lib/broker/mediator/socks5.rs:96-110 | The same for user name and password (section 2 of RFC 1929) |
| Socks5.Reader.ReadRequest | crates/microkitchen/lib/broker/mediator/socks5.rs:112-145 | The stepwise reader returns and consumes what the stream function says |
| Socks5.Reader.ReadCredentials | crates/microkitchen/lib/broker/mediator/socks5.rs:96-110 | The same for credentials |
| Socks5.Reader.ReadGreeting | crates/microkitchen/lib/broker/mediator/socks5.rs:84-93 | The same for the method list |
| Socks5.EncodeDatagram | crates/microkitchen/lib/broker/mediator/socks5.rs:199-204 | Builds the packet that parses back to its endpoint and payload |
| Socks5.EncodeReply | crates/microkitchen/lib/broker/mediator/socks5.rs:147-151 | Builds a reply laid out as a request with the code for the command |
| UdpRelay.Relay.OnDatagram | crates/microkitchen/lib/broker/mediator/udp.rs:100-139 | Listens to the first sender only; a packet that encodes a new destination starts one admission for its canonical endpoint, under the encoded name in lower case or under none, and any other packet changes nothing; everything sent to any destination stays what was expected, and verdicts never change |
| UdpRelay.DestinationIff | crates/microkitchen/lib/broker/mediator/udp.rs:107-121 | Exactly the packets that encode an endpoint, or an LDH name that was resolved, have a destination: the canonical endpoint, under no name or under that name in lower case |
| UdpRelay.Relay.OnDecided | crates/microkitchen/lib/broker/mediator/udp.rs:140-149 | Takes up a pending destination's verdict, sends what was held if it is to allow, and keeps every expectation |
| UdpRelay.Relay.OnAdmitFinished | crates/microkitchen/lib/broker/mediator/udp.rs:133-136 | A destination stays pending from its one admission until the result is taken up |
| UdpRelay.Relay.OnReply | crates/microkitchen/lib/broker/mediator/udp.rs:150-159 | A reply is forwarded, to the owner, exactly when it comes from an allowed destination, to which something was sent before |
| UdpRelay.ExpectedAroundVerdict | crates/microkitchen/lib/broker/mediator/udp.rs:122-149 | What a destination gets: nothing unless allowed, else the first sixteen payloads from before the verdict and all from after it, in order |
| UdpRelay.TellsArrival | crates/microkitchen/lib/broker/mediator/udp.rs:122-138 | A datagram keeps the table's word and the sent payloads in step with the history, and a pending queue between one and sixteen |
| UdpRelay.BookedSettle | crates/microkitchen/lib/broker/mediator/udp.rs:140-149 | The destination whose result is taken up was pending, and pending destinations stay exactly those with an outstanding admission or result |
| Grammar.LowersLetters | crates/microkitchen/lib/config/hostpat.rs:63-64 | The twenty-six capitals become their small letters, and every other character stays |
| HostPatterns.NamesThatParse | crates/microkitchen/lib/config/hostpat.rs:95-124 | Text that is no range and no address is a rule exactly when it is an LDH name, after an optional wildcard, that does not end in a number |
| HostPatterns.SuffixMatchesByLabels | crates/microkitchen/lib/config/hostpat.rs:63-75 | A wildcard matches exactly the names whose labels end with its own |
| RuleMatches.MatchesIff | crates/microkitchen/lib/config/hostpat.rs:63-87 | What each kind of rule matches: an exact name in any case, a wildcard by labels, an address in either of its forms, a range by whole octets and leading bits |
| RuleMatches.RangesThatParse | crates/microkitchen/lib/config/hostpat.rs:95-102 | Text with a slash is a rule exactly when it reads as a range whose base has no bits behind its prefix, octet by octet |
| RuleMatches.ParsesIff | crates/microkitchen/lib/config/hostpat.rs:95-124 | Text is a rule exactly as a range, else as an address, else as a host name that does not end in a number, in lower case and with an optional wildcard before it |
| RuleMatches.ComplaintsAre | crates/microkitchen/lib/config/hostpat.rs:95-124 | Which of four complaints any other text gets |
| HostPatterns.NamesRoundTrip | crates/microkitchen/lib/config/hostpat.rs:126-135 | A printed name rule reads back as itself and never as an address or a range |
| HostPatterns.PrintRoundTrips | crates/microkitchen/lib/config/hostpat.rs:126-135 | Every rule that parses prints as text that parses to the same rule |
| Grammar.ValidatesExactlyLdhNames | crates/microkitchen/lib/broker/mediator/grammar.rs:55-80 | The validator accepts exactly the dotted sequences of LDH labels within the length limits, and changes nothing |
| Grammar.RejectsInOrder | crates/microkitchen/lib/broker/mediator/grammar.rs:55-80 | An empty name, the first forbidden byte, and the total length are complained about in this order, each exactly when the ones before do not apply |
| Grammar.FirstBadLabelDecides | crates/microkitchen/lib/broker/mediator/grammar.rs:69-79 | Otherwise the first label that is no LDH label decides: empty, else too long, else a hyphen at an end |
| StagingRequests.RewritesReach | crates/microkitchen/lib/config/staging.rs:333-420 | Every rewritten value of a plan is that of a request that was not refused and leads to a planned source, its own or an unrestricted ancestor, and names the file's place there exactly when that source is its own or lies strictly under the kitchen |
| StagingExact.AskedIff | crates/microkitchen/lib/config/staging.rs:333-420 | A document asks for exactly the sources of its file tables, in every spelling and with their conditions, and for one root of the dotfiles, of which the kitchen's own wins |
| StagingExact.RewrittenIff | crates/microkitchen/lib/config/staging.rs:233-318 | The rewrites are exactly those of the requests that were not refused: the value becomes the place of its literal prefix with its pattern after it, and a manifest is dropped |
| StagingExact.RewritesAreInTurn | crates/microkitchen/lib/config/staging.rs:233-318 | They follow each other as the requests do |
| StagingExact.SourceIsExact | crates/microkitchen/lib/config/staging.rs:183-225 | After any requests a host path's one source is kept to tracked files exactly when all of its requests are, keeps an exclusion exactly when they share it, is the dotfiles' root exactly when one is, and is reported under the first |
| StagingExact.PlanIsExact | crates/microkitchen/lib/config/staging.rs:483-499 | The plan holds exactly such sources, of staged host paths that no other source covers, in the order of their paths |
| StagingExact.PlacesAre | crates/microkitchen/lib/config/staging.rs:431-455 | Below the kitchen directory a path lands under `project` by its relative path, anywhere else by name under the digest of its directory |
| StagingExact.SamePlaceIff | crates/microkitchen/lib/config/staging.rs:431-455 | Two host paths land at one place exactly when they are the same, or both lie elsewhere, with one name and directories of one digest |
| Staging.KeptHolds | crates/microkitchen/lib/config/staging.rs:431-499 | For every planned source that covers a path, the same equivalence |
| Staging.PlannedIff | crates/microkitchen/lib/config/staging.rs:483-499 | A source is kept exactly when no other source is an unrestricted proper ancestor |
| Staging.OutsideAncestorDangles | crates/microkitchen/lib/config/staging.rs:480-499 | Two sources outside the kitchen, one below the other, for which the rewrite finds nothing |
| Staging.MergeNeverNarrows | crates/microkitchen/lib/config/staging.rs:183-193 | A merged source copies whatever either of the two would have copied |
| StagingRequests.NothingNarrows | crates/microkitchen/lib/config/staging.rs:183-193 | However many requests share a host path, the one source collected for it copies whatever each of them would have |
| StagingRequests.PlanCarriesRequests | crates/microkitchen/lib/config/staging.rs:333-420 | The final plan copies whatever any request that was not refused would have copied, from its own source or an unrestricted ancestor |
| StagingRequests.RefusedIff | crates/microkitchen/lib/config/staging.rs:161-230 | A request is refused exactly when its text does not resolve, or an earlier one that was not refused took its guest path for another host path |
| StagingRequests.EveryRequestIsAnswered | crates/microkitchen/lib/config/staging.rs:233-318 | The k-th refused request has the k-th report and there are no other reports; every other request has all its rewrites, and its host path is staged |
| StagingRequests.RewritesAreAskedFor | crates/microkitchen/lib/config/staging.rs:233-318 | There are no other rewrites: each is asked for by a request that was not refused and whose host path is staged |
| Staging.CollectRegisters | crates/microkitchen/lib/config/staging.rs:161-230 | Sources stay indexed by host, land where their host path says, and never share a guest path |
| Staging.SplitGlob | crates/microkitchen/lib/config/staging.rs:457-475 | Splits a path at its first pattern component |
| Staging.Collector.AddEntry | crates/microkitchen/lib/config/staging.rs:233-318 | An entry asks for its source and for every variant's, in order |
| Staging.Collector.Plan | crates/microkitchen/lib/config/staging.rs:333-420 | The plan is what all entries and the dotfiles' root ask for, with nested sources dropped |

## Left out

- Sockets, task spawning, DNS forwarding, dialog programs, the audit log and
  tracing: inputs of steps or not modelled.
- Process attribution: display for whoever answers, without effect on a verdict;
  the wait for it is part of the dialog's preparing step.
- Persistence of the registry, `restore`, secrets and their comparison, picking
  and binding of ports: parameters of `Registry.Broker.Register`.
- TOML and DNS message parsing, SHA-256, address text: abstract functions with
  the facts stated where they are used.
- Layout, comments and section creation in `config/edit.rs`: edits are modelled
  on the entries of the two lists.
- `BindingStore::snapshot`, `flatten` and the other listings: display only.
- Editing the global rules file, which runs the same list code on other keys.
- ApprovalProtocol.Next: tripping the limit and its notification are one step,
  because nothing reads the notification.
- Registry.Broker.Admit: sequential; what happens between its steps is the subject
  of `BrokerRuns` and the approval state machine.
- RuleEdits.Document.SetRule: an edit that fails for an unreadable or invalid
  file, rather than a list that is no array, is not distinguished.
- ApprovalRounds.RoundsAreBounded: no claim that a scheduler lets every flow
  take its steps; timeouts and answers are steps that can happen, not that must.
- BrokerRuns.Step: consulting reads rules and grants in one step, and an answer is
  written for all its subjects in one; what a cached file can hide is `RuleCache`. What
  the bindings say of a flow is an input of its arrival; `Provenance` ties it to the store.
- BrokerAnswers.CanAskIff: no further writes, because an arbitrary one can decide
  a flow or leave it open.
- UdpRelay.Relay: a missing IPv6 socket drops what is handed to it; the model
  speaks about what is handed over.
- Staging.GuestPath: paths are component lists; joining them with `/` and the
  copying itself are not modelled.
- `schema`, `settings`, `naming`, `size`, `remodel`, `mise` and the sandbox and
  command-line crates: mostly one-branch checks or plumbing.
