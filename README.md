# Fitness multi-agent system: a verified Dafny model

The system is a small BDI (belief, desire, intention) multi-agent program that analyses a
user's fitness data. Three agents share one registry:

- a reactive **data agent** (`FitnessDataAgent`) answers `retrieve_fitness_data` requests with a
  data bundle from a data source;
- a deliberative **analysis agent** (`AnalysisAgent`) turns the bundle into a fitness level and
  recommendations, using means-end reasoning over an action library;
- a hybrid **user-interface agent** (`UserInterfaceAgent`) compiles reports, chooses among
  subsumption layers, and answers user commands.

A driver (`FitnessMAS`) builds the three agents, starts an analysis and runs a bounded cycle
loop that steps every agent in registry order. Beside the agents sits a fitness ontology: classes
with inherited, typed properties, schema validation, and a store of classes, relations and
instances.

The project is organised as follows:

| file | module | what it holds |
|---|---|---|
| `values.dfy` | `Values` | Python's dynamically typed values as a datatype, the data-source reading, and the fitness bundle |
| `base_agent.dfy` | `BaseAgent` | belief, desire, intention and message records; the pure store operations (stable priority sort, bounded completion history, `list.remove`); `class Agent` with the base methods |
| `reasoning.dfy` | `Reasoning` | the pure decision tables: fitness level, recommendation analysis, action library and condition check, layer choice, command dispatch, report building |
| `semantics.dfy` | `Semantics` | every agent operation as a function on values. An `Outcome` is the agent's new state plus the messages it sent; `Apply` delivers those messages to the other agents |
| `specialized_agents.dfy` | `SpecializedAgents` | the agent operations as methods on the shared registry of `Agent` objects. Each is proved to leave the registry as the matching `Semantics` function says |
| `fitness_mas.dfy` | `MultiAgentSystem` | `class FitnessMAS`, and the world-level step, sweep and run functions that specify it |
| `agent_properties.dfy` | `AgentProperties` | lemmas about the agents' reasoning |
| `system_properties.dfy` | `SystemProperties` | lemmas about the cycle loop and the end-to-end analysis |
| `fitness_ontology.dfy` | `Ontology` | `OntologyClass`, validation (as written and as intended), and `class FitnessOntology` |

The agents' imperative methods are tied to the value semantics by one ghost predicate.
`At(reg, me, W, o)` says the registry's agent states equal `Apply(W, Roster(reg), me, o)`. Here
`W` is the world before agent `me` began its current call, and `o` is what it has done so far.
Every method in `SpecializedAgents` takes `At(..., o)` to `At(..., F(o, ...))`, where `F` is the
`Semantics` function of the same name. `FitnessMAS.RunCycle` is therefore proved equal to
`MultiAgentSystem.Run` on the agents' states. The lemmas in `AgentProperties` and
`SystemProperties` are stated over those functions.

Python's class hierarchy is replaced by one `Agent` class with a `kind` (data, analysis or
user interface). The global `agent_registry` becomes an explicit sequence with distinct names.
Rule callables become fixed per kind. Object identity of desires and intentions becomes a
numeric `id`, drawn from a per-agent counter. Beliefs are a map keyed by predicate.

## Model

| member | source | states |
|---|---|---|
| BaseAgent.Lookup | ia/multi-agent-essex-code/base_agent.py:106-111 | `get_belief` finds a belief iff one with that predicate is held, and returns that belief |
| BaseAgent.Agent.AddBelief | ia/multi-agent-essex-code/base_agent.py:99-104 | upsert by predicate: the key set gains exactly `b.pred`, `get_belief(b.pred)` returns `b`, every other predicate's belief is unchanged, and one belief per predicate is kept |
| BaseAgent.Agent.AddDesire | ia/multi-agent-essex-code/base_agent.py:113-118 | afterwards the desires are sorted by priority, highest first, and are the old desires plus exactly `d` (as a multiset) |
| BaseAgent.AddDesireSorts | ia/multi-agent-essex-code/base_agent.py:113-118 | the list grows by exactly the new desire (no duplicate suppression), is sorted descending, and the desires of each priority keep their order, with the new one last among its equals (the stable sort) |
| BaseAgent.AddDesireInserts | ia/multi-agent-essex-code/base_agent.py:113-118 | on an already sorted list, append-then-sort is insertion after every desire of at least the new priority |
| BaseAgent.AddDesireHighestFirst | ia/multi-agent-essex-code/base_agent.py:113-118 | after `add_desire`, the first desire has the highest priority of all |
| BaseAgent.InsertDesirePermutes | ia/multi-agent-essex-code/base_agent.py:117 | one insertion step of the sort adds exactly the inserted desire |
| BaseAgent.InsertDesireStable | ia/multi-agent-essex-code/base_agent.py:117 | one insertion step keeps the order of equal-priority desires and puts the new one last among them |
| BaseAgent.SortDescSorted | ia/multi-agent-essex-code/base_agent.py:117 | the sort yields a descending permutation of its input |
| BaseAgent.SortDescStable | ia/multi-agent-essex-code/base_agent.py:117 | the sort keeps the relative order of desires with equal priority |
| BaseAgent.SortDescSortedFixed | ia/multi-agent-essex-code/base_agent.py:117 | sorting a list that is already sorted changes nothing |
| BaseAgent.Agent.AddIntention | ia/multi-agent-essex-code/base_agent.py:120-123 | only the intention list changes, by appending the intention |
| BaseAgent.Agent.CompleteIntention | ia/multi-agent-essex-code/base_agent.py:125-132 | the new state is `Complete`: every listed entry with the intention's identity is flagged completed in place (it is not removed), the completed copy is the newest history entry, and a history of at most five stays at most five |
| BaseAgent.ReplayIsLastFive | ia/multi-agent-essex-code/base_agent.py:128-131 | however many intentions complete, the history is exactly the five most recent, oldest first (oldest-first eviction) |
| BaseAgent.RecentWindow | ia/multi-agent-essex-code/base_agent.py:129-131 | one append-then-evict step keeps the five-entry window of the completion log |
| BaseAgent.FlagCompleted | ia/multi-agent-essex-code/base_agent.py:127 | only the entries with the intention's identity are flagged completed; the list keeps its length |
| BaseAgent.RemoveId | ia/multi-agent-essex-code/specialized_agents.py:541-542 | `intentions.remove(x)` drops the first entry with `x`'s identity (the one at `FirstWithId`), keeps every other entry in its order, and returns the list unchanged when no entry has that identity |
| BaseAgent.MarkAchieved | ia/multi-agent-essex-code/specialized_agents.py:544-546 | only the desire with the intention's desire identity becomes achieved; nothing else changes |
| BaseAgent.FirstUnachieved | ia/multi-agent-essex-code/specialized_agents.py:484-486 | the first unachieved desire exists iff some desire is unachieved, and every desire before it is achieved |
| BaseAgent.Live | ia/multi-agent-essex-code/specialized_agents.py:479 | the pruned list holds exactly the intentions that are not completed (the ordered filter itself is stated by `AgentProperties.LiveAppend` and `LiveSingle`) |
| BaseAgent.Conversation | ia/multi-agent-essex-code/base_agent.py:76 | a supplied non-empty conversation id is kept unchanged; otherwise one from the clock is used |
| BaseAgent.Agent.SendMessage | ia/multi-agent-essex-code/base_agent.py:134-140 | the returned message carries sender name, receiver name, act, content and conversation; it is appended once to the sender's log, once to the receiver's queue and once to the receiver's log |
| BaseAgent.Agent.ReceiveMessage | ia/multi-agent-essex-code/base_agent.py:142-146 | the message is appended to the queue and to the log, unfiltered |
| Reasoning.DetermineFitnessLevel | ia/multi-agent-essex-code/specialized_agents.py:834-847 | the level is one of four: "Excellent" iff steps > 10000 and average heart rate < 85; otherwise "Good" iff steps > 7500; "Average" iff 5000 < steps <= 7500; "Below target" iff steps <= 5000 |
| Reasoning.MeanBelow | ia/multi-agent-essex-code/specialized_agents.py:838-840 | the average-below test equals the integer test `sum < c * len` |
| Reasoning.InlineLevelAgrees | ia/multi-agent-essex-code/specialized_agents.py:441-450 | the analysis agent's inline classification agrees with `determine_fitness_level` on every input |
| Reasoning.AnalyzeFitnessData | ia/multi-agent-essex-code/specialized_agents.py:548-581 | the texts are, one for one and in order, the recommendations the analysis selects |
| Reasoning.AnalysisProperties | ia/multi-agent-essex-code/specialized_agents.py:548-581 | the analysis is never empty; it advises more steps iff steps < 7500, cardio iff the average heart rate is above 100, recovery iff more than two samples exceed 140, and praises steps iff steps > 8000; exactly one of the two sleep messages appears, so the fallback text is unreachable |
| Reasoning.CheckCondition | ia/multi-agent-essex-code/specialized_agents.py:415-421 | `has_fitness_data` holds iff a `fitness_data` belief is held, `has_recommendations` iff a `recommendations` belief is held; any other condition is false |
| Reasoning.LibraryShape | ia/multi-agent-essex-code/specialized_agents.py:402-413 | every goal of the action library has `analyze_fitness_data` as its first action, and its preconditions hold iff fitness data is held |
| Reasoning.SelectLayer | ia/multi-agent-essex-code/specialized_agents.py:675-683 | `report_generation` iff any desire, achieved or not, is named `generate_report`; otherwise `data_collection` iff no `fitness_data` belief; otherwise `report_display`; `user_interaction` is never selected |
| Reasoning.Lower | ia/multi-agent-essex-code/specialized_agents.py:766 | lower-casing maps each character and keeps the length (ASCII letters only; see Left out) |
| Reasoning.Contains | ia/multi-agent-essex-code/specialized_agents.py:766 | `sub in s` holds iff `sub` occurs in `s` at some position |
| Reasoning.ClassifyProperties | ia/multi-agent-essex-code/specialized_agents.py:766-791 | the command dispatch ignores letter case; each command holds exactly when its phrase occurs in the lower-cased query and no earlier phrase does, in the fixed precedence start analysis, show report, help; unrecognised holds exactly when none occurs |
| Reasoning.GenerateReport | ia/multi-agent-essex-code/specialized_agents.py:815-832 | the report copies user id, steps, calories, sleep and recommendations from its inputs; its average heart rate is the samples' mean; a truthy given level is kept, a falsy one is replaced by the level `determine_fitness_level` computes from the bundle's steps and heart rate |
| Semantics.Apply | ia/multi-agent-essex-code/base_agent.py:139-146 | after an agent's call, it holds its new state and every other agent has received, in order, exactly the messages addressed to its name |
| Semantics.ApplyIdle | ia/multi-agent-essex-code/base_agent.py:139-146 | an agent that did nothing leaves the world unchanged |
| Semantics.SendTo | ia/multi-agent-essex-code/base_agent.py:134-140 | one send builds the message, logs it at the sender, queues it for delivery, and changes nothing else |
| Semantics.BroadcastFromLogged | ia/multi-agent-essex-code/specialized_agents.py:528-538 | a registry loop sends exactly the messages of its addressed entries, in registry order, and the sender logs each once |
| Semantics.BroadcastReaches | ia/multi-agent-essex-code/specialized_agents.py:376-382 | a registry loop reaches each addressed agent exactly once and no other agent |
| Semantics.FirstNamed | ia/multi-agent-essex-code/specialized_agents.py:159-167 | the reply loop finds the first registry entry with the sender's name, or none when no agent has that name |
| Semantics.Reply | ia/multi-agent-essex-code/specialized_agents.py:159-167 | a reply changes only the replying agent's log, besides the message it sends |
| Semantics.Learn | ia/multi-agent-essex-code/specialized_agents.py:41-43 | INFORM turns each content entry into a full-confidence belief under its key; other beliefs are kept |
| Semantics.NewIntention | ia/multi-agent-essex-code/specialized_agents.py:498-502 | a new, live intention for the desire is appended; beliefs and desires are unchanged |
| Semantics.Sample | ia/multi-agent-essex-code/specialized_agents.py:362-370 | the bundle carries the reading's samples and steps, tagged with the request's `user_id` or "default_user" |
| Semantics.Retrieve | ia/multi-agent-essex-code/specialized_agents.py:350-384 | the data rule stores a `fitness_data` belief and retracts none |
| Semantics.ProcessMessages | ia/multi-agent-essex-code/base_agent.py:160-171 | an empty queue changes nothing; otherwise every message is interpreted and the queue ends empty; no belief is retracted |
| Semantics.Step | ia/multi-agent-essex-code/base_agent.py:178-192 | the step reports activity iff it processed messages or the intention list is non-empty after `execute` (entries flagged completed count too, as `len(self.intentions) > 0` does); no belief is retracted |
| Semantics.AbsorbData | ia/multi-agent-essex-code/specialized_agents.py:428-456 | received data is stored as `fitness_data` with the computed fitness level, an `analyze_fitness` desire is held afterwards, and no intention changes |
| Semantics.AnalysisDeliberate | ia/multi-agent-essex-code/specialized_agents.py:458-474 | deliberation changes only desires |
| Semantics.AnalysisPlan | ia/multi-agent-essex-code/specialized_agents.py:476-504 | planning changes only intentions |
| Semantics.UILayers | ia/multi-agent-essex-code/specialized_agents.py:632-660 | the report flag is raised only by an INFORM with recommendations, and then a `generate_report` desire is held |
| Semantics.UIDeliberate | ia/multi-agent-essex-code/specialized_agents.py:662-670 | deliberation changes only desires; what it adds is stated by `AgentProperties.UIDeliberateAdds` |
| Semantics.HybridPlan | ia/multi-agent-essex-code/specialized_agents.py:198-222 | planning changes only intentions; what it keeps and adds is stated by `AgentProperties.HybridPlanLive` and `HybridPlanIdle` |
| Semantics.UIReactivePass | ia/multi-agent-essex-code/specialized_agents.py:615-626 | the `report_available` rule changes only the agent's log, besides its requests; the requests are stated by `AgentProperties.UIReactivePassSends` |
| Semantics.UICompile | ia/multi-agent-essex-code/specialized_agents.py:729-754 | the UI agent's own compile step retracts no belief and never touches the desires |
| Semantics.HybridCompile | ia/multi-agent-essex-code/specialized_agents.py:253-279 | the inherited compile step retracts no belief; its effects are stated by `AgentProperties.HybridCompileReports` |
| Semantics.UILoop | ia/multi-agent-essex-code/specialized_agents.py:725-758 | the UI agent's intention loop retracts no belief; its effects, including the repeated reactive pass of the fall-through, are stated by `AgentProperties.UIExecuteRepeatsReactivePass` |
| Semantics.UserInput | ia/multi-agent-essex-code/specialized_agents.py:760-791 | the query is logged; the reply is "Starting fitness analysis..." iff the command is start analysis; the formatted report is returned iff the command is show report and a report is held, "No report available yet..." when none is; help returns the help text and anything else the unknown-command reply; start analysis sends one `retrieve_fitness_data` REQUEST to each data agent in registry order and logs each, and no other command sends anything; beliefs, desires and intentions are unchanged |
| AgentProperties.DesireOnceAdds | ia/multi-agent-essex-code/specialized_agents.py:455-456 | the guarded `add_desire` adds exactly one desire iff none of that name was held, and one of that name is held afterwards |
| AgentProperties.AnalysisDeliberateAdds | ia/multi-agent-essex-code/specialized_agents.py:458-474 | deliberation keeps every desire and adds exactly: `generate_recommendations` at 0.8 when the level is "Below target" and none is held; `analyze_fitness` at 0.9 when data but no recommendations are held and none is held; the 1.0 branch never adds a second copy |
| AgentProperties.AnalysisPlanProperties | ia/multi-agent-essex-code/specialized_agents.py:476-504 | completed intentions are dropped and nothing is added while one is live; otherwise exactly one intention is added iff the first unachieved desire is in the library and fitness data is held; that intention runs the library's first action for that desire, with detail level "high" iff the desire is `generate_recommendations` |
| AgentProperties.HybridPlanLive | ia/multi-agent-essex-code/specialized_agents.py:198-222 | the parent's planning leaves only live intentions and keeps the live ones |
| AgentProperties.UIPlanIsHybridPlan | ia/multi-agent-essex-code/specialized_agents.py:672-714 | because the parent's planning runs first, the UI agent's layer-guided planning never adds an intention of its own: it ends exactly where the parent's does |
| AgentProperties.UIPlanAddsOnlyWhenIdle | ia/multi-agent-essex-code/specialized_agents.py:690-714 | the UI agent adds at most one intention, and only when none is live after the parent's planning |
| AgentProperties.ReportFlagRaised | ia/multi-agent-essex-code/specialized_agents.py:633-654 | `processing_report` goes from false to true only on an INFORM carrying recommendations, which also leaves a `generate_report` desire; interpretation never lowers it |
| AgentProperties.UICompileProperties | ia/multi-agent-essex-code/specialized_agents.py:729-754 | compiling never touches the desires (the `generate_report` desire is not marked achieved) and changes nothing without both data and recommendation beliefs; with them and a data bundle it sets the `fitness_report` belief to a report and `last_report` to the same value, clears the flag, records the completed intention in the history, and leaves it no longer pending |
| AgentProperties.RemovedNotPending | ia/multi-agent-essex-code/specialized_agents.py:748-749 | after `complete_intention` and `remove`, the intention is no longer pending |
| AgentProperties.ReactiveInterpretCases | ia/multi-agent-essex-code/specialized_agents.py:38-49 | INFORM turns every entry into a belief and sends nothing; a `retrieve_fitness_data` REQUEST fires the rule once with the full content; any other message changes nothing |
| AgentProperties.RetrieveInformsOnce | ia/multi-agent-essex-code/specialized_agents.py:376-382 | the data rule informs each analysis and UI agent of the new data exactly once, and no other agent |
| AgentProperties.DataAgentServes | ia/multi-agent-essex-code/specialized_agents.py:341-384 | one step of a data agent holding one data request stores the fresh data and informs each analysis and UI agent of it once |
| AgentProperties.AbsorbDataGoals | ia/multi-agent-essex-code/specialized_agents.py:454-456 | absorbing data adds at most the `analyze_fitness` desire, a pending goal of the library |
| AgentProperties.AnalyzeStepRecommends | ia/multi-agent-essex-code/specialized_agents.py:512-546 | with a data bundle held, the analysis intention stores `analyze_fitness_data` of the bundle as `recommendations` and changes no other belief; with a fitness level held it sends one INFORM carrying the recommendations, the bundle and the level to each user-interface agent in registry order; the intention is retired and exactly its desire is marked achieved |
| AgentProperties.AnalysisReceives | ia/multi-agent-essex-code/specialized_agents.py:423-456 | processing one INFORM with data stores the bundle and leaves an `analyze_fitness` desire, with no intention |
| AgentProperties.AnalysisPlans | ia/multi-agent-essex-code/specialized_agents.py:476-502 | deliberation and planning then yield exactly one live `analyze_fitness_data` intention |
| AgentProperties.AnalysisExecutes | ia/multi-agent-essex-code/specialized_agents.py:506-546 | executing that intention with a bundle held stores recommendations |
| AgentProperties.AnalysisAgentRecommends | ia/multi-agent-essex-code/specialized_agents.py:423-546 | an analysis agent with one data INFORM queued holds recommendations after one step |
| AgentProperties.LiveOfLive | ia/multi-agent-essex-code/specialized_agents.py:691 | pruning a list with no completed intention changes nothing |
| AgentProperties.LiveAppend | ia/multi-agent-essex-code/specialized_agents.py:479 | the pruning distributes over concatenation, so it is the order-keeping filter |
| AgentProperties.LiveSingle | ia/multi-agent-essex-code/specialized_agents.py:479 | a single intention is kept exactly when it is not completed |
| AgentProperties.DeliberativeInterpretCases | ia/multi-agent-essex-code/specialized_agents.py:139-167 | an INFORM learns every content pair; a REQUEST with a non-empty text action only adds the desire named by it at priority 0.7; a QUERY whose non-empty key is believed replies to the sender with one INFORM carrying that belief in the same conversation, and otherwise sends nothing; any other act changes nothing |
| AgentProperties.HybridInterpretCases | ia/multi-agent-essex-code/specialized_agents.py:315-338 | an INFORM learns every content pair; otherwise only the log may change, and a `get_report` REQUEST, with a report held and the sender another registered agent, sends exactly one INFORM carrying that report back to the sender in the same conversation; nothing else is sent |
| AgentProperties.UIDeliberateAdds | ia/multi-agent-essex-code/specialized_agents.py:662-670 | a `generate_report` desire at priority 0.9 is added exactly when recommendations and fitness data are held, no truthy report is held and no such desire exists; when ready, the desire is held afterwards |
| AgentProperties.HybridPlanIdle | ia/multi-agent-essex-code/specialized_agents.py:203-222 | with no live intention, planning adopts an intention exactly when the first unachieved desire is `get_fitness_data` or `generate_report`, and it is then `request_fitness_data` for `current_user` or `compile_fitness_report`, tied to that desire |
| AgentProperties.UIReactivePassSends | ia/multi-agent-essex-code/specialized_agents.py:615-626 | the reactive pass sends one `get_report` REQUEST to every other agent when a `report_available` belief is held, and nothing otherwise |
| AgentProperties.HybridRequestSends | ia/multi-agent-essex-code/specialized_agents.py:237-251 | a `request_fitness_data` intention sends one `retrieve_fitness_data` REQUEST, carrying the intention's user id, to every other agent, records the intention as completed and retires it, and leaves beliefs and desires unchanged |
| AgentProperties.HybridCompileReports | ia/multi-agent-essex-code/specialized_agents.py:253-279 | without fitness data and recommendations the compile step does nothing; with them it stores a report whose level is "Unknown", tells every other agent a report is available, retires the intention and marks exactly its desire achieved |
| AgentProperties.HybridLoopRetires | ia/multi-agent-essex-code/specialized_agents.py:233-279 | every request intention in the loop's snapshot, and every compile intention when the data are ready, is no longer pending after the loop |
| AgentProperties.HybridExecuteRetires | ia/multi-agent-essex-code/specialized_agents.py:224-279 | after `execute`, no request intention it started with is pending, nor any compile intention when the data were ready |
| AgentProperties.UIExecuteRepeatsReactivePass | ia/multi-agent-essex-code/specialized_agents.py:716-758 | with one pending request intention, the UI agent's `execute` runs the reactive pass twice (its own and the parent's) before sending the data request once, and retires the intention |
| AgentProperties.StartCommandReachesDataAgents | ia/multi-agent-essex-code/specialized_agents.py:766-775 | after start analysis, another agent's inbox gains the start command's `retrieve_fitness_data` REQUEST exactly when it is a data agent |
| AgentProperties.RetireRetires | ia/multi-agent-essex-code/specialized_agents.py:541-546 | recording an intention as completed and removing it leaves it not pending |
| AgentProperties.RetireKeepsDone | ia/multi-agent-essex-code/specialized_agents.py:541-546 | retiring one intention never makes another pending |
| SpecializedAgents.Broadcast | ia/multi-agent-essex-code/specialized_agents.py:528-538 | the registry loop leaves every agent as `Semantics.Broadcast` says |
| SpecializedAgents.ReplyTo | ia/multi-agent-essex-code/specialized_agents.py:159-167 | the reply loop leaves every agent as `Semantics.Reply` says |
| SpecializedAgents.LearnAll | ia/multi-agent-essex-code/specialized_agents.py:42-43 | the loop of `add_belief` calls leaves the agent as `Semantics.Learn` says |
| SpecializedAgents.Retrieve | ia/multi-agent-essex-code/specialized_agents.py:350-384 | the data rule, on the registry, as `Semantics.Retrieve` |
| SpecializedAgents.ReactiveInterpret | ia/multi-agent-essex-code/specialized_agents.py:38-49 | `ReactiveAgent.interpret_message`, on the registry, as `Semantics.ReactiveInterpret` |
| SpecializedAgents.ReactiveExecute | ia/multi-agent-essex-code/specialized_agents.py:31-36 | `ReactiveAgent.execute`, on the registry, as `Semantics.ReactiveExecute` |
| SpecializedAgents.DeliberativeInterpret | ia/multi-agent-essex-code/specialized_agents.py:139-167 | `DeliberativeAgent.interpret_message`, on the registry, as `Semantics.DeliberativeInterpret` (an empty query key is skipped); its cases are stated by `AgentProperties.DeliberativeInterpretCases` |
| SpecializedAgents.AnalysisInterpret | ia/multi-agent-essex-code/specialized_agents.py:423-456 | `AnalysisAgent.interpret_message`, on the registry, as `Semantics.AnalysisInterpret` |
| SpecializedAgents.AnalysisDeliberate | ia/multi-agent-essex-code/specialized_agents.py:458-474 | `AnalysisAgent.deliberate` on the agent's state, as `Semantics.AnalysisDeliberate` |
| SpecializedAgents.AnalysisPlan | ia/multi-agent-essex-code/specialized_agents.py:476-504 | `AnalysisAgent.plan` on the agent's state, as `Semantics.AnalysisPlan` |
| SpecializedAgents.AnalysisExecute | ia/multi-agent-essex-code/specialized_agents.py:506-546 | the copy-iteration loop of `AnalysisAgent.execute`, on the registry, as `Semantics.AnalysisExecute`; one analysis step's value, messages, retire and achieve are stated by `AgentProperties.AnalyzeStepRecommends` |
| SpecializedAgents.HybridInterpret | ia/multi-agent-essex-code/specialized_agents.py:315-338 | `HybridAgent.interpret_message`, on the registry, as `Semantics.HybridInterpret`; its cases, including the `get_report` reply, are stated by `AgentProperties.HybridInterpretCases` |
| SpecializedAgents.UIInterpret | ia/multi-agent-essex-code/specialized_agents.py:628-660 | `UserInterfaceAgent.interpret_message`, on the registry, as `Semantics.UIInterpret` |
| SpecializedAgents.UIDeliberate | ia/multi-agent-essex-code/specialized_agents.py:662-670 | `UserInterfaceAgent.deliberate` on the agent's state, as `Semantics.UIDeliberate` |
| SpecializedAgents.HybridPlan | ia/multi-agent-essex-code/specialized_agents.py:198-222 | `HybridAgent.plan` on the agent's state, as `Semantics.HybridPlan` |
| SpecializedAgents.UIPlan | ia/multi-agent-essex-code/specialized_agents.py:672-714 | `UserInterfaceAgent.plan` on the agent's state, as `Semantics.UIPlan` |
| SpecializedAgents.HybridExecute | ia/multi-agent-essex-code/specialized_agents.py:224-279 | `HybridAgent.execute` (reactive pass, then the intention loop), on the registry, as `Semantics.HybridExecute`; what the requests and the compile step send and retire is stated by `AgentProperties.HybridRequestSends`, `HybridCompileReports` and `HybridExecuteRetires` |
| SpecializedAgents.UIExecute | ia/multi-agent-essex-code/specialized_agents.py:716-758 | `UserInterfaceAgent.execute`, including the fall-through to the parent's `execute`, on the registry, as `Semantics.UIExecute` |
| SpecializedAgents.ProcessMessages | ia/multi-agent-essex-code/base_agent.py:160-171 | returns true iff the queue was non-empty, and leaves the registry as `Semantics.ProcessMessages` says |
| SpecializedAgents.Step | ia/multi-agent-essex-code/base_agent.py:178-192 | returns the step's activity and leaves the registry as `Semantics.Step` says |
| SpecializedAgents.ProcessUserInput | ia/multi-agent-essex-code/specialized_agents.py:760-791 | returns the reply and leaves the registry as `Semantics.UserInput` says |
| MultiAgentSystem.FitnessMAS.constructor | ia/multi-agent-essex-code/fitness_mas.py:15-28 | three fresh agents (data, analysis, user interface) make up the registry, in that order, all with empty beliefs, desires, intentions and queues; the data agent draws from the given source |
| MultiAgentSystem.FitnessMAS.StartAnalysis | ia/multi-agent-essex-code/fitness_mas.py:30-42 | the agents end as `StartAnalysisWorld` says: the UI agent sends the data agent one `retrieve_fitness_data` request for the user |
| MultiAgentSystem.FitnessMAS.ProcessUserCommand | ia/multi-agent-essex-code/fitness_mas.py:48-50 | the command is handled by the UI agent; reply and agent states are as `Semantics.UserInput` says |
| MultiAgentSystem.FitnessMAS.RunCycle | ia/multi-agent-essex-code/fitness_mas.py:52-73 | the nested loops with activity accumulator and early break leave the agents as `MultiAgentSystem.Run` says |
| SystemProperties.RunCharacterized | ia/multi-agent-essex-code/fitness_mas.py:54-70 | `run_cycle` performs some number `n <= max_cycles` of cycles, each stepping every agent once in registry order; `n` is 0 only when the limit is 0; cycles 1 to `n - 2` were all active; it stops before the limit only after an idle cycle other than cycle 0 |
| SystemProperties.RunGrows | ia/multi-agent-essex-code/fitness_mas.py:54-65 | no cycle retracts any agent's belief |
| SystemProperties.SweepGrows | ia/multi-agent-essex-code/fitness_mas.py:60-62 | one cycle over the registry retracts no belief |
| SystemProperties.StepAgentGrows | ia/multi-agent-essex-code/fitness_mas.py:61 | one agent's step retracts no belief, its own or another's |
| SystemProperties.StartAnalysisDelivers | ia/multi-agent-essex-code/fitness_mas.py:30-39 | `start_analysis` queues exactly one request at the data agent, logs it at the UI agent, and leaves the analysis agent and all beliefs, desires and intentions unchanged |
| SystemProperties.FirstCycleRecommends | ia/multi-agent-essex-code/fitness_mas.py:54-65 | on fresh agents, the first cycle after `start_analysis` for a string user id leaves the data agent holding the first reading and the analysis agent holding recommendations |
| SystemProperties.AnalysisCompletes | ia/multi-agent-essex-code/tests/test_fitness_mas.py:404-418 | after the constructor, `start_analysis` for a string user id and `run_cycle` with a limit of at least one, the data agent holds `fitness_data` and the analysis agent holds `recommendations` |
| SystemProperties.InRangeAnalysisCompletes | ia/multi-agent-essex-code/tests/test_fitness_mas.py:404-418 | the same end state whenever the data source keeps to its documented ranges |
| Ontology.Find | ia/multi-agent-essex-code/fitness_ontology.py:40 | a property's declared type is found iff the name is declared |
| Ontology.Put | ia/multi-agent-essex-code/fitness_ontology.py:30 | a dictionary store: the key set gains the name, only that key's type changes, and keys stay unique |
| Ontology.Update | ia/multi-agent-essex-code/fitness_ontology.py:27-30 | `dict.update`: the keys are the union and stay unique |
| Ontology.UpdateFind | ia/multi-agent-essex-code/fitness_ontology.py:27-30 | after the update, a key of the second dictionary has its type from it, and any other key keeps its type |
| Ontology.OntologyClass.constructor | ia/multi-agent-essex-code/fitness_ontology.py:8-16 | the class records its name, properties and parent, and is added to the parent's subclasses |
| Ontology.OntologyClass.GetAllProperties | ia/multi-agent-essex-code/fitness_ontology.py:21-32 | the full property list has unique names and includes every property the class declares |
| Ontology.InheritedFind | ia/multi-agent-essex-code/fitness_ontology.py:21-32 | a property the class declares has its own type (child overrides); any other has the type its parent chain gives it |
| Ontology.AllNames | ia/multi-agent-essex-code/fitness_ontology.py:21-32 | the property names are the class's own plus every inherited one |
| Ontology.HeartRateLookups | ia/multi-agent-essex-code/fitness_ontology.py:78-81 | a heart-rate reading inherits the metric's `timestamp` and declares its own integer `value` |
| Ontology.OntologyClass.ValidateInstance | ia/multi-agent-essex-code/fitness_ontology.py:34-49 | the loop returns the corrected error list `Errors` of all declared properties |
| Ontology.BadProps | ia/multi-agent-essex-code/fitness_ontology.py:40-47 | the bad properties are exactly the declared ones that are missing or hold a non-conforming value |
| Ontology.ErrorsPerProperty | ia/multi-agent-essex-code/fitness_ontology.py:40-47 | exactly one error per missing or mistyped property, in declaration order, saying which |
| Ontology.ValidIff | ia/multi-agent-essex-code/fitness_ontology.py:34-49 | the error list is empty iff every declared property is present and conforms (a property declared `Any` conforms to anything) |
| Ontology.ExtrasIgnored | ia/multi-agent-essex-code/fitness_ontology.py:40-48 | fields the schema does not declare never cause an error |
| Ontology.AsWrittenRaises | ia/multi-agent-essex-code/fitness_ontology.py:46 | as written, validation raises iff a property declared `Any` is present; otherwise it agrees with the corrected validation |
| Ontology.AnyPresentRaises | ia/multi-agent-essex-code/fitness_ontology.py:46 | as written, every instance carrying a property declared `Any` makes validation raise |
| Ontology.SampleGoalRaisesAsWritten | ia/multi-agent-essex-code/fitness_ontology.py:89 | a well-formed fitness goal raises under the validation as written and is valid under the corrected one |
| Ontology.FitnessOntology.constructor | ia/multi-agent-essex-code/fitness_ontology.py:65-105 | the built ontology has no instances and holds the twelve classes and six relations, with `HeartRate` under `FitnessMetric` and the inherited lookups above |
| Ontology.FitnessOntology.AddClass | ia/multi-agent-essex-code/fitness_ontology.py:107-111 | the class is stored under its name, replacing any old one; its parent is the named class, or none when the parent name is absent, empty or unknown |
| Ontology.FitnessOntology.AddRelation | ia/multi-agent-essex-code/fitness_ontology.py:113-121 | with both classes known, the relation is stored and returned; otherwise nothing is stored and none is returned |
| Ontology.FitnessOntology.AddInstance | ia/multi-agent-essex-code/fitness_ontology.py:123-137 | an unknown class returns false and stores nothing; validation errors raise with the joined messages and store nothing; otherwise `{type, data}` is stored under the id, overwriting any old entry, and true is returned; validation is the corrected `ValidateInstance` (see Findings) |
| Ontology.FitnessOntology.GetInstance | ia/multi-agent-essex-code/fitness_ontology.py:139-141 | an unknown id yields an empty map |
| Ontology.FitnessOntology.GetInstancesOfType | ia/multi-agent-essex-code/fitness_ontology.py:143-149 | the loop returns `OfType` of the stored instances, in insertion order |
| Ontology.OfTypeExactly | ia/multi-agent-essex-code/fitness_ontology.py:143-149 | the result holds exactly the data of the stored instances of that class |

## Left out

- `assets/js/navigation.js` and `main.py`: browser UI and a launcher, outside the agent system.
- `display_*`, `run_interactive_demo` and `format_report_for_display`: console I/O and text formatting. `show report` returns the held report as a `Formatted` value.
- `log_activity` and the activity log: side logging that no decision reads.
- `time.sleep`, and the `wait_time` parameter of `run_cycle`: pacing only.
- Clock-derived values (belief and message timestamps, `report_id`, the generated conversation id): each is one abstract value (`Stamp`, `FromClock`).
- The random data source of `retrieve_data`: it is a parameter `source: nat -> Reading` of the data agent, read once per retrieval. `Values.InRange` records the documented ranges, and `SystemProperties.InRangeAnalysisCompletes` uses it as the data-source hypothesis. `round(..., 1)` of the sleep hours is part of the source.
- Floating point: averages are exact rationals, and the model compares them through integer sums. Sleep hours are `real`.
- `_update_ontology`, `convert_fitness_data_to_ontology` and `create_fitness_report_in_ontology`: their instance ids come from the clock. For a string user id they only log data into the ontology singleton. For any other user id, the `User` instance fails validation and `run_cycle` raises ValueError (fitness_ontology.py:160-165 and :127-129, reached from fitness_mas.py:64 and :75-80).
- MultiAgentSystem.FitnessMAS.RunCycle: carries on where Python's `run_cycle` raises for a user id that is not a string, because the ontology update after each step is not modelled. `SystemProperties.FirstCycleRecommends`, `AnalysisCompletes` and `InRangeAnalysisCompletes` therefore assume a string user id.
- MultiAgentSystem.FitnessMAS.StartAnalysis: does not clear the ontology singleton's instances, because the system object does not hold the ontology here. The ontology store is modelled on its own.
- MultiAgentSystem.FitnessMAS.constructor: builds a fresh registry rather than clearing a global one. The data agent draws from the given source; the other agents never draw.
- `add_rule` and `add_plan` at run time, and `HybridAgent.plans`: no code path adds rules after construction, and `plans` is never read. The rules are fixed per kind: the data agent has `retrieve_fitness_data`, the UI agent has `report_available`.
- `DeliberativeAgent.plan`, `DeliberativeAgent.execute`, the two-argument `analyze_fitness_data` and `HybridAgent.deliberate`: every agent the system builds overrides them.
- `HybridAgent.generate_report` and `HybridAgent.determine_fitness_level`: the only hybrid agent is the UI agent, whose versions are modelled.
- `OntologyClass.__str__`, `Relation.__str__` and the other `__str__` methods: text only.
- Belief `__eq__` and `__hash__` set mechanics: beliefs are a map keyed by predicate. The iteration order of the belief set in `execute` is irrelevant, because each agent has at most one rule.
- Python crashes on wrongly shaped values are not modelled. For a `fitness_data` that is not a bundle, an empty heart-rate list, or a non-dictionary rule argument, the model skips the step where Python would raise.
- Semantics.Recommend: when no `fitness_level` belief is held it still sends, with no level in the content, where `analyze_fitness_data` raises AttributeError (specialized_agents.py:535). Absorbing a bundle always sets the level, so this does not arise in the modelled system.
- Semantics.HybridRequest: an intention without a `user_id` parameter sends a request without one, where Python raises KeyError (specialized_agents.py:246). Planning always sets `user_id`, so this does not arise in the modelled system.
- Reasoning.Lower: lower-cases ASCII letters only, where Python's `str.lower()` is Unicode-aware. The command phrases are all ASCII, so the dispatch differs only for non-ASCII letters whose lower-case form is ASCII (such as the Kelvin sign).
- Ontology.FitnessOntology.AddInstance: uses the corrected validation. As written, `add_instance` raises TypeError on any instance with a value for an `Any`-typed property, such as a FitnessGoal with a target (fitness_ontology.py:46, reached from :127); see Findings.
- Semantics.DeliberativeInterpret: a REQUEST whose action is truthy but not text is ignored, where Python adopts a desire named by that value. Desire names are strings in the model.
- Semantics.Addressed: an agent never addresses itself. In the system's registry no registry loop would select the sender, so this excludes nothing there.
- Semantics.Reply: a reply that would go to the replying agent itself is dropped. No agent of the system sends a query or a `get_report` request to itself.
- SpecializedAgents.ProcessMessages: messages an agent would send to itself while draining its queue are not modelled, for the same reason.
- Semantics.AnalysisDeliberate, Semantics.AnalysisPlan, Semantics.UIDeliberate, Semantics.HybridPlan: their own contracts state only which fields they leave unchanged. What they add is stated by `AgentProperties.AnalysisDeliberateAdds`, `AnalysisPlanProperties`, `UIDeliberateAdds`, `HybridPlanLive` and `HybridPlanIdle`. The UI agent's planning is related to the parent's by `UIPlanIsHybridPlan` and `UIPlanAddsOnlyWhenIdle`.
- Semantics.Retrieve, Semantics.UICompile, Semantics.HybridCompile, Semantics.UILoop: their own contracts state only that no belief is retracted. Their effects are stated elsewhere. Retrieve is covered by `AgentProperties.RetrieveInformsOnce` and `DataAgentServes`. UICompile is covered by `UICompileProperties`. HybridCompile is covered by `HybridCompileReports`. UILoop is covered by `UIExecuteRepeatsReactivePass` for a single pending request; for longer intention lists only the no-retraction clause is stated.
- Ontology.FitnessOntology.constructor: states which classes and relations exist, the `HeartRate` parent and three property lookups. It does not state the exact key sets or every schema.
- Ontology.FitnessOntology.GetInstance: its contract states the unknown-id case. The stored-id case is stated by `AddInstance` (a stored instance's data is returned).
- Ontology.OntologyClass.GetAllProperties: `subclasses` is recorded but never read by any modelled operation.
- `PyType` covers `str`, `int`, `float`, `bool` and `Any`, the types the ontology declares. `bool` passes an `int` field, and a clock string passes a `str` field.
- Distinct property names are required of a class's own properties, as a Python dictionary guarantees.

## Findings

| source | as written | input that shows it | evidently intended | confidence | as-written member | corrected member |
|---|---|---|---|---|---|---|
| ia/multi-agent-essex-code/fitness_ontology.py:46 | `isinstance(value, prop_type)` is evaluated before `prop_type != Any`, and `isinstance` with `typing.Any` raises `TypeError` | a `FitnessGoal` instance `{"name": "daily steps", "target": 10000, "achieved": False}` | a property declared `Any` accepts any value, so this goal validates with no errors | high; not executed | Ontology.SampleGoalRaisesAsWritten | Ontology.ValidIff |
