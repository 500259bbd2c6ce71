# Verified models of the support agent and the contingency desk

The repository holds two programs. `MySingHacks` is a customer-support agent: a ticket runs through a graph of
model calls inside a durable workflow, pauses when it wants to cause a side effect, waits for a reviewer or a
deadline, and then acts or does not. `contingency-desk` is a Streamlit app for private bankers: plans are drafted
ahead of a move of the Brent price, armed with a signature, watched, fired and acted upon, against a book that is
revalued as the price moves. This project models the logic of both in Dafny 4.11 and proves what that logic
promises. `dafny verify dfyconfig.toml` checks everything.

## What is proved

**The approval protocol** (`TicketSystem`, `TicketSafety`, `TicketRuns`, `TicketOutcomes`, `TicketEffects`,
`TicketSignals`, `TicketProgress`, `TicketTraces`, over `SupportGraph`, `GraphBuilder`, `TicketWorkflow`,
`TicketMapping`, `ActionRegistry`, `Gateway`). Any number of tickets share one registry. A step is one event: a node
finishing, the pause, a signal at any time, waking, the deadline, an activity attempt starting, reaching the registry,
being acknowledged or lost, the run ending or being closed from outside, the worker restarting. What models answer is
arbitrary. Over every run: every registry entry and every effect was approved by a reviewer while its ticket was
waiting, with the arguments that reviewer was shown; a (ticket, action) takes effect exactly once in each worker
process in which an attempt reached the registry, at most min(3, 1 + restarts) times in all, and that bound is reached;
a run consumes exactly one decision, the first signalled in the pause or else the system's rejection, and deleting
every other signal from a run leaves the same run; the visible status only advances; status, answer and citations at
the end are functions of plan, configuration and decision, and plan, draft and category are what the models last
answered; a critique that passes ends the reflection loop; no ticket gets stuck except in a pause without a deadline,
where it waits for its reviewer; none drafts more than L + 1 times or moves more than 2 L + 24 times.

**The plan lifecycle** (`PlanLifecycle`, `PlanTimes`, `PlanObjects`, `Sweeping`, `Desk`, `DeskTimes`, `DeskObjects`,
`CanonicalJson`, `JsonReader`). The canonical text reads back as the plan's JSON tree and identifies it exactly, up to
the order of members, so a signature verifies exactly for the tree that was signed or for a text that collides with its
text. A plan armed at a level fires exactly when its trigger holds at it. Every run of a plan follows the state
machine, its log tells the story, its arming record is never rewritten, and its log is in time order under an exact
condition on the one time that can be given. One sweep fires exactly the plans that hit, in order, and a second one
none; one that raises has done so at the first plan that cannot be read. After any sequence of callbacks, exceptions
included, the screen shows the shock of the dial and no armed trigger is true unseen exactly under a condition on the
last update that can be read off the session before it; and where no time is given, every log on the desk stays in time
order.

**The shock engine and its inverse** (`MoveBook`, `ShockEngine`, `FactorModel`). Over reals and books of any size: a
shock moves every position by value times beta times the relative move of Brent; the grouping loop conserves moves and
money, the sort is a stable sort, the precomputed form equals revaluing each leg, the solved Brent level is the unique
one with the trigger LTV and separates breached from not, the fitted beta is the unique least-squares minimiser of the
relative price changes, the offline shock is the online one up to the moves it drops.

**Two algorithms of the gateway** (`RateLimiter`, `Embeddings`). The fixed-window counter bounds every sliding window,
half-open or closed, and each bound is reached exactly under a stated condition; embedding vectors are reassembled by
index exactly when the indices are a permutation (pigeonhole).

## How to read the model

- Python objects that are updated in place are classes (`SupportTicketWorkflow`, `ToolRegistry`, `PlanRecord`,
  `Book`, `SessionState`, `StateGraph`, `RedisRateLimiter`); each method equates the new state with a function of
  the old one, and runs are reasoned about on those functions. Graph nodes, routers and projections are functions.
- A Python exception or a Go error is an `Err`. Where evaluation order decides which one is raised, the model follows it.
- Floats are reals; a number in a plan is its numeral and the real that numeral stands for. Clocks, SHA-256, the
  reading of numerals, the `%g` format, model answers and stored files are parameters. Of the hash nothing is
  assumed but that a digest is never empty; a collision is a case of the statements, and
  `PlanLifecycle.CollisionFreePlatform` shows that the collision-free case is not empty.
- One activation of a workflow handles one event, so the deadline can only win while no decision is latched. An
  attempt the server has given up on may still reach the registry later. A signal is possible at any time, whatever
  the gateway was told; that includes every decision the gateway passes on after a stale read. Pausing and finishing
  are steps of their own, which only adds interleavings.
- One worker process runs at a time. That is an operating rule (`MySingHacks/docs/deployment.md:52`), not something the
  code enforces; `min(3, 1 + restarts)` and the counts by process rest on it. With several workers at once each would
  have a registry of its own.
- `json.dumps(sort_keys=True)` sorts while it prints; the model sorts every object first and prints the result.

## Where the code does less than its documentation says

- The registry is said to act exactly once per ticket and action; its memory dies with the worker process. The exact
  count is one effect for every process in which an attempt reached the registry (`EffectsCounted`), and for every
  number of restarts some run has min(3, 1 + restarts) effects under one key (`BoundIsReached`).
- The printer gives one text for U+10000 and for the two lone surrogates D800 DC00 (`LoneSurrogatesCollide`). Among
  all strs its text identifies exactly those without such a pair and without a code point of 0x10000 or above
  (`TextIdentified`); among the strs a JSON reader returns, it identifies every one (`ReadTextIdentified`).
- `breached` is false for a negative lending value although the headroom is short (`BreachedExactlyWhenShort`), and
  paying exactly the quoted cure leaves the facility at its trigger, where it still reads as breached.
- A price at which a lending value is zero lets an exception escape after the dial has moved: the screen then
  shows another price (`UnpriceableLevelUnsettles`; `DialCanUnsettle` has one within the dial's range, though the
  facts shipped with the app have none there). A plan that cannot be read, standing before one whose trigger is true,
  stops the sweep and hides that trigger (`UnreadablePlanUnsettles`). The screen is settled exactly outside these two
  families: `Settleable`, of the last session an update was made of (`AppSettled`).
- Arming with a time given, as the authoring pass does, can put a log out of order: a time before the draft's last
  entry does so at once (`BackdatingBreaksOrder`), a time still to come does so when the plan fires before it
  (`PostdatingBreaksOrder`). A run's log is in order exactly if the given time lies between the entries around it
  (`GivenTimeDecides`); whatever happens next, it stays in order exactly if the time lies between the last entry
  and now, or the trigger can never be read (`SafeArmingTime`).
- The gateway adds one hour to the approval window for the agent's own work. With every attempt used up that is
  enough exactly for at most two reflection loops (`HeadroomFits`); the settings allow three.
- A rate window shorter than a millisecond never limits anything (`DegenerateConfigs`).
- A run that fails or is closed keeps showing running or waiting_approval; it never reaches a terminal status.

## Model

| member | source | states |
|---|---|---|
| SupportGraph.FullRunBounds | MySingHacks/services/agent/app/graph/workflow.py:22-38 | for every oracle, draft and reflect run equally often: as often as the place of the first critique that passes, at most L + 1 times; and a run with all attempts used takes 1080 + 720 n seconds for n rounds, at most 1800 + 720 L |
| SupportGraph.HeadroomFits | MySingHacks/services/gateway/internal/tickets/temporal.go:41-57 | the hour added to the approval window covers every such run if and only if L is at most 2 |
| GraphBuilder.BuildSupportGraph | MySingHacks/services/agent/app/graph/workflow.py:203-243 | the successive add calls build exactly the declared graph |
| GraphBuilder.SupportGraphDeclares | MySingHacks/services/agent/app/graph/workflow.py:141-243 | the declared edges are exactly the moves nodes and routers can make, both ways, and timeouts and attempts are those budgeted; a failed critique goes back to the draft exactly while at most L were made, and an approval, nothing else, goes to the action |
| TicketMapping.ScanIsLeftmost | MySingHacks/services/agent/app/temporal/mapping.py:13-19 | cutting a text at its leftmost non-overlapping bracket matches, the scanner returns their contents in order |
| TicketMapping.LeftmostExists | MySingHacks/services/agent/app/temporal/mapping.py:13-19 | every text has such a cut |
| TicketMapping.FirstSeenOrder | MySingHacks/services/agent/app/temporal/mapping.py:16-19 | the result lists every match once, in the order of first occurrences |
| TicketMapping.CitationsInOrder | MySingHacks/services/agent/app/temporal/mapping.py:13-19 | the citations of a text are the contents of its leftmost bracket matches, each once, in the order of first occurrence; without an answer there are none |
| TicketMapping.ApprovalKeepsCitations | MySingHacks/services/agent/app/graph/workflow.py:188-192 | the approval prefix adds no citation and hides none, for every draft |
| ActionRegistry.ToolRegistry.ExecuteAction | MySingHacks/services/agent/app/tools/registry.py:65-82 | one atomic check and write under `ticket:action`: a new key is recorded with its action, its own arguments and `accepted`, an old one answered from memory, nothing else changes |
| ActionRegistry.RepeatsReturnTheFirst | MySingHacks/services/agent/app/tools/registry.py:74-82 | after any sequence of calls in between, a repeated call returns the first recorded output, whatever its own arguments, and changes nothing |
| ActionRegistry.KeyInjective | MySingHacks/services/agent/app/tools/registry.py:74-74 | keys never collide although ticket ids may hold colons |
| TicketWorkflow.SupportTicketWorkflow.SubmitDecision | MySingHacks/services/agent/app/temporal/workflows.py:61-76 | keeps the first decision of the pause, drops early and repeated ones |
| TicketWorkflow.SupportTicketWorkflow.Begin | MySingHacks/services/agent/app/temporal/workflows.py:88-92 | the state published at the start of a run |
| TicketWorkflow.SupportTicketWorkflow.Pause | MySingHacks/services/agent/app/temporal/workflows.py:111-118 | the state published at the interrupt |
| TicketWorkflow.SupportTicketWorkflow.AwaitDecision | MySingHacks/services/agent/app/temporal/workflows.py:127-143 | a latched decision wins; the system rejects only past a deadline that was set |
| TicketWorkflow.SupportTicketWorkflow.Finish | MySingHacks/services/agent/app/temporal/workflows.py:124-125 | the state published at the end |
| Gateway.TemporalService.constructor | MySingHacks/services/gateway/internal/tickets/temporal.go:41-57 | the execution timeout: the window plus an hour, none for an unlimited wait |
| Gateway.TemporalService.Decide | MySingHacks/services/gateway/internal/tickets/temporal.go:102-125 | a decision is passed on exactly when the state read was waiting, and each refusal and failure has its own reply |
| TicketSystem.SteppedOk | MySingHacks/services/agent/app/graph/workflow.py:150-200 | what every event keeps of its own ticket, phase by phase: values, published state, latch, attempts |
| TicketSafety.StepOk | MySingHacks/services/agent/app/tools/registry.py:65-82 | every enabled step of the whole system keeps: records stem from approved tickets, effects of one key lie in different processes, effects plus running attempts never exceed attempts started |
| TicketSafety.EffectBounds | MySingHacks/services/agent/app/tools/registry.py:65-82 | in every sound state a key has at most one effect per process and at most min(3, 1 + process) in all |
| TicketRuns.OneDecision | MySingHacks/services/agent/app/temporal/workflows.py:61-76 | a run consumes exactly one decision, once: that of the first signal between its only pause and its resumption, or the system's rejection when the deadline passed with none |
| TicketOutcomes.EffectsWereApproved | MySingHacks/services/agent/app/graph/workflow.py:150-200 | in every reachable state each registry entry and effect was approved by a signal sent while its ticket was waiting and undecided; its key, action and arguments are those then shown, and those shown are the planned action and amount on the ticket's own customer and order |
| TicketOutcomes.EffectsBounded | MySingHacks/services/agent/app/tools/registry.py:65-82 | over every run a (ticket, action) takes effect at most once per process and at most min(3, 1 + restarts) times, and the registry holds only what this process did |
| TicketOutcomes.VisibleStatusAdvances | MySingHacks/services/agent/app/temporal/mapping.py:39-55 | the published state only moves on from running to waiting to completed or rejected; within a stage it does not change |
| TicketOutcomes.PendingExactlyWhileWaiting | MySingHacks/services/agent/app/temporal/mapping.py:39-55 | a pending action is published exactly while the status is waiting_approval, and terminal statuses belong exactly to finished runs |
| TicketOutcomes.OutcomeDetermined | MySingHacks/services/agent/app/temporal/mapping.py:42-46 | a finished graph carries its own status, so the default is never used; status and answer are functions of plan, draft, configuration and consumed decision |
| TicketOutcomes.ApprovedRunKeepsCitations | MySingHacks/services/agent/app/temporal/mapping.py:13-19 | an approved run ends with the citations its reviewer saw |
| TicketSignals.StaleDecision | MySingHacks/services/gateway/internal/tickets/temporal.go:102-125 | a decision passed on for a state read earlier and arriving later belongs to a run that had paused before it was read; it is latched exactly if no signal, resumption or closing came between that pause and its arrival, and otherwise changes nothing that is read |
| TicketOutcomes.SignalLatches | MySingHacks/services/agent/app/temporal/workflows.py:70-76 | a signal changes the system exactly when it is the first while its run is shown as waiting |
| TicketOutcomes.LateDecisionUnread | MySingHacks/services/agent/app/temporal/workflows.py:119-143 | outside the pause no step of a ticket reads its latch |
| TicketSignals.SignalsDropped | MySingHacks/services/agent/app/temporal/workflows.py:61-76 | deleting every early, repeated and late signal from a run leaves a valid run whose states are the same, registry and effects included, up to latches nothing reads |
| TicketEffects.RepeatsReturnTheFirst | MySingHacks/services/agent/app/tools/registry.py:65-82 | any two registry calls of one ticket in a run return the same record, even across worker restarts |
| TicketEffects.EffectsCounted | MySingHacks/services/agent/app/tools/registry.py:65-82 | the effects of a (ticket, action) are exactly as many as the worker processes in which an attempt of it reached the registry |
| TicketEffects.BoundIsReached | MySingHacks/services/agent/app/graph/workflow.py:34-38 | for every action that needs approval and every number of restarts some run has exactly min(3, 1 + restarts) effects under one key |
| TicketProgress.NeverStuck | MySingHacks/services/agent/app/temporal/workflows.py:78-143 | in every reachable state a ticket that has not ended can move, unless it waits for a reviewer without a deadline |
| TicketProgress.RunsEnd | MySingHacks/services/agent/app/graph/workflow.py:132-178 | however tickets, signals, retries and restarts interleave, no ticket moves more than 2 L + 24 times |
| TicketProgress.LoopBounded | MySingHacks/services/agent/app/graph/workflow.py:132-148 | in every run no ticket drafts or reflects more than L + 1 times, and reflections follow drafts one for one; no critique has passed while the loop goes on, and past the gate either exactly the last one passed or the loops are used up |
| TicketProgress.CritiqueDecides | MySingHacks/services/agent/app/graph/workflow.py:132-148 | in every run a critique sends its ticket back to the draft if and only if it failed and at most L were made, this one included; otherwise on to the gate |
| TicketTraces.TicketsTraced | MySingHacks/services/agent/app/temporal/workflows.py:78-125 | in every reachable state a ticket is the one its only first step asked for (customer, order, time, deadline), its category, plan, draft and critique are the last answers the models gave, and what is published is, stage by stage, read from those |
| TicketTraces.EffectsTraced | MySingHacks/services/agent/app/graph/workflow.py:150-200 | every effect of a run is the action a model planned, for the planned amount, on the customer and order its ticket was begun with, approved by a reviewer while that ticket was waiting |
| TicketTraces.TimeoutRejects | MySingHacks/services/agent/app/temporal/workflows.py:127-143 | a run whose deadline passed ends rejected by the system with `approval timed out`, and its action was never attempted |
| CanonicalJson.PrintedAlike | contingency-desk/store.py:50-51 | two strs print alike exactly if their UTF-16 code units are the same |
| CanonicalJson.TextIdentified | contingency-desk/store.py:50-51 | a printed text identifies a str among all strs if and only if it has no high surrogate right before a low one and no code point of 0x10000 or above |
| CanonicalJson.ReadTextIdentified | contingency-desk/store.py:50-51 | among the strs a JSON reader can produce it identifies a str if and only if that str could come from one |
| CanonicalJson.LoneSurrogatesCollide | contingency-desk/store.py:50-51 | a concrete pair of different strs with one printed text |
| CanonicalJson.PutInjective | contingency-desk/store.py:50-51 | the printed text determines the tree and where it ends, whatever follows |
| CanonicalJson.CanonSame | contingency-desk/store.py:50-51 | sorting every object makes two trees equal exactly if they are the same JSON tree up to member order, numbers by lexeme |
| CanonicalJson.DumpsIdentifies | contingency-desk/store.py:50-51 | two canonical texts are equal if and only if the trees are the same up to member order, numbers by lexeme |
| CanonicalJson.InsertionOrderIrrelevant | contingency-desk/store.py:50-51 | the order in which an object was built does not show |
| JsonReader.DumpsReadsBack | contingency-desk/store.py:50-51 | a JSON reader that allows no space between tokens reads the canonical text as the plan's own tree with the keys of every object ascending, and the text is printable ASCII throughout |
| JsonReader.ValueReads | contingency-desk/store.py:50-51 | whatever follows it, a printed tree reads back as that tree, member order included |
| JsonReader.EscapeIsShortest | contingency-desk/store.py:50-51 | no spelling of a code unit is shorter than the printed one, and its hexadecimal digits are small letters |
| JsonReader.LessIsLexicographic | contingency-desk/store.py:50-51 | the order of keys is that of their first different code points, a prefix coming first |
| PlanLifecycle.SignatureIdentifies | contingency-desk/store.py:41-51 | two bodies have one signature if and only if they are the same JSON tree up to member order, or their texts are a hash collision |
| PlanLifecycle.CollisionFreePlatform | contingency-desk/store.py:51-51 | a hash without collisions and empty digests exists in the model |
| PlanLifecycle.SignedFields | contingency-desk/store.py:41-51 | of two bodies that are the same tree, plan id, trigger (its level as the number its numeral stands for) and ranked actions are the same |
| PlanLifecycle.SignedReasoning | contingency-desk/store.py:38-50 | the signed trees of two plans are the same if and only if every part of the reasoning is: id, trigger, level as written, each action, the projection and all the rest |
| PlanLifecycle.RunLawful | contingency-desk/store.py:69-146 | every run from a fresh draft stays lawful: linked log, allowed edges, the exact shapes of the history, the arming record, and a firing record whose observed value compares as the trigger says with the armed level |
| PlanLifecycle.LogTellsTheStory | contingency-desk/store.py:69-146 | at most five entries ending in the current state, ARMED never visible, and ACTIONED only after an ARMED entry by the manager and a FIRED entry by the watcher whose observation makes the trigger true at the armed level |
| PlanLifecycle.ArmedAsSigned | contingency-desk/store.py:83-100 | arming a draft signs the level given, or else the drafted one, in the manager's name, and logs one entry of hers and one of the system's at the time given or read |
| PlanLifecycle.ArmedLevelDecides | contingency-desk/store.py:92-146 | a plan armed at a level and run on in any way fires if and only if it is watching and the observed value stands to the level signed as its operator says, whatever level was drafted; if it has fired, the value recorded did |
| PlanLifecycle.ArmingNoted | contingency-desk/store.py:93-99 | the note of an arming names the edit of the level exactly if there was one |
| PlanLifecycle.FiredAsObserved | contingency-desk/store.py:113-118 | firing records the observation and when it was made, and logs its comparison in the watcher's name |
| PlanLifecycle.DismissedWithReason | contingency-desk/store.py:103-109 | dismissing records the reason, stripped, as resolution and as the manager's note |
| PlanLifecycle.ActedAsChosen | contingency-desk/store.py:122-129 | acting carries out the first action of the rank asked for: the resolution names it, and the note is the manager's or its name, cut to 200 characters |
| PlanLifecycle.RunExtends | contingency-desk/store.py:83-129 | over any further run the log only grows, the body stays, arming and firing records are never rewritten |
| PlanLifecycle.ArmingRecordHolds | contingency-desk/store.py:54-66 | once armed the signature verifies through any further run, and after a rewrite of the body exactly if the rewrite left the same tree or a colliding text; the verdict shows the signature of what was armed next to that of what is there |
| PlanLifecycle.ComparisonShowsArming | contingency-desk/store.py:149-160 | the comparison exists exactly for plans armed and fired, and shows the logged arming with its time and level, a verifying signature and the observed value and time of firing, which makes the trigger true at the armed level |
| PlanLifecycle.OperationsGuarded | contingency-desk/store.py:74-146 | each operation goes through exactly in its states and with its reason, rank or true trigger; a refusal changes nothing |
| PlanTimes.StepTimeSorted | contingency-desk/store.py:69-100 | a step keeps a log in time order if and only if it appends nothing, or nothing stamped before the last entry |
| PlanTimes.GivenTimeDecides | contingency-desk/store.py:69-129 | under a clock that never runs back, the log of a run from a draft is in time order if and only if the time given at its arming, if any, lies no earlier than the entry before and no later than the entry after |
| PlanTimes.SafeArmingTime | contingency-desk/store.py:83-100 | arming a draft with a time leaves the log in order through every further run if and only if the time lies between the last entry and now, or lies after it and the trigger can never be read |
| PlanTimes.LiveLogsAreSorted | contingency-desk/store.py:69-129 | where no time is ever given, every log of every run is in time order |
| PlanTimes.BackdatingBreaksOrder | contingency-desk/store.py:83-100 | a failing input: a draft armed with a time before its authoring |
| PlanTimes.PostdatingBreaksOrder | contingency-desk/store.py:83-118 | the other failing input: a draft armed at 1 with the time 100 and fired at 2 |
| PlanObjects.PlanRecord.DeepCopy | contingency-desk/store.py:91-91 | a fresh plan and a fresh governance record with the same content |
| PlanObjects.PlanRecord.Move | contingency-desk/store.py:74-79 | logs and moves in place, or raises before anything is written |
| PlanObjects.ArmPlan | contingency-desk/store.py:83-100 | a fresh object that holds the armed plan, in the manager's name at the level given or else the drafted one, or a refusal; the caller's plan is untouched either way |
| PlanObjects.DismissPlan | contingency-desk/store.py:103-109 | the same for dismissing, which needs a reason |
| PlanObjects.FirePlan | contingency-desk/store.py:113-118 | the same for firing, with the observation it is given |
| PlanObjects.ActionPlan | contingency-desk/store.py:122-129 | the same for acting, which needs an action of the given rank |
| Sweeping.SweepFiresHits | contingency-desk/store.py:133-146 | after any number of turns the sweep has fired exactly the hits so far, in order, and touched no other plan; or it has raised at the first plan that cannot be looked at, having fired exactly the hits before it and left the rest |
| Sweeping.SecondSweepIdle | contingency-desk/store.py:133-146 | if firing takes a plan out of sight, a completed sweep leaves nothing pending and the next one changes nothing |
| Sweeping.SweepLeavesNoneTrue | contingency-desk/store.py:133-146 | a sweep, raising or not, leaves no trigger true if and only if no plan that hits stands after one that cannot be looked at |
| DeskObjects.Book.RunSweep | contingency-desk/store.py:133-146 | the loop that replaces entries of the dictionary it walks equals the sweep of the specification, exceptions included |
| Desk.SweepOnce | contingency-desk/store.py:133-146 | one sweep of the book at a market fires exactly the watching plans that hit it, in order, leaves the rest as they were, and a second sweep fires none |
| DeskObjects.SessionState.constructor | contingency-desk/app.py:200-209 | the session before its first market update: the loaded plans, today's price, no message |
| DeskObjects.SessionState.UpdateMarketState | contingency-desk/app.py:30-35 | shocks, shows, then sweeps; an exception leaves what was written before it |
| DeskObjects.SessionState.SetDial | contingency-desk/app.py:38-47 | moves the dial and updates; the session is settled afterwards exactly under the condition on the session before |
| DeskObjects.SessionState.Reset | contingency-desk/app.py:53-63 | reloads drafts and price, clears the message and updates, with the same equivalence |
| DeskObjects.SessionState.Transition | contingency-desk/app.py:66-77 | only a refusal is caught; the session and what escapes are those of the specification |
| Desk.UpdateSettles | contingency-desk/app.py:30-35 | after an update the screen shows the shock of the dial and no watching trigger is true if and only if the book can be priced and no true trigger stands after an unreadable one; it raises if and only if the book cannot be priced or some watching trigger cannot be read |
| Desk.CallbackSettles | contingency-desk/app.py:30-77 | the same for every callback; one that is refused, or names no plan, changes only the message |
| Desk.CallbackShows | contingency-desk/app.py:38-77 | the dial is where it was put or, after a reset, at today's price; a refusal leaves only its message, and an operation that went through or a reset clears it |
| Desk.AppSettled | contingency-desk/app.py:30-77 | after any sequence of callbacks, whatever was refused or raised on the way, the session is settled if and only if the last session an update was made of met that condition |
| Desk.AppStaysSettled | contingency-desk/app.py:30-77 | if every loaded trigger can be read and every level dialled can be priced, every sequence of callbacks leaves the session settled and lets nothing escape but the name of an unknown plan |
| Desk.UnpriceableLevelUnsettles | contingency-desk/app.py:38-41 | any level at which the book cannot be priced leaves the dial there, the screen behind and an exception escaping |
| Desk.DialCanUnsettle | contingency-desk/app.py:30-41 | a failing input within the dial's range: at 80 all is settled, dialling 60 raises and leaves the screen at 80 |
| Desk.UnreadablePlanUnsettles | contingency-desk/app.py:30-35 | the other failing input: two lawful armed plans of which the first cannot be read and the second should fire |
| Desk.AppLawful | contingency-desk/app.py:30-77 | whatever is clicked, every plan on the desk stays lawful |
| DeskTimes.DeskLogsAreSorted | contingency-desk/app.py:30-77 | if the loaded logs are in time order and not ahead of the clock, and sweeps and operations read a clock that never runs back and no time is given, then after any callbacks every log on the desk is in time order |
| MoveBook.GroupMoves | contingency-desk/engine.py:49-57 | the loop yields, per client in order of first mention, exactly that client's moves in book order and their sum |
| MoveBook.SeenOrder | contingency-desk/engine.py:49-51 | clients are listed in the order in which the book first mentions them |
| MoveBook.SortMovesIsStableSort | contingency-desk/engine.py:61-61 | the sorted moves ascend, are a permutation with the same total, and keep the order of equal deltas |
| MoveBook.BookConserved | contingency-desk/engine.py:49-61 | the clients' shares together are the book, each move in exactly one, and their deltas add up to the book's |
| ShockEngine.RevalueFacilities | contingency-desk/engine.py:37-46 | every facility revalued, or the division by a zero lending value |
| ShockEngine.Shock | contingency-desk/engine.py:28-63 | the whole market at a level, or exactly the exception that stops it first; what it shows is stated by `ShockShows` |
| ShockEngine.ShockShows | contingency-desk/engine.py:28-63 | with m the move of Brent relative to today: exactly the clients with a position are shown, each with exactly its positions, every one moved by value times beta times m, their percentages and shocked values, the sum of value times beta times m as delta and that as a percentage of its wealth; and every facility at lending value plus C times m |
| ShockEngine.TodayNothingMoves | contingency-desk/engine.py:28-63 | at today's price every move and every client's delta is zero |
| ShockEngine.ClientStatement | contingency-desk/engine.py:49-61 | a client's shown moves are an ascending stable permutation of its own whose deltas sum to its delta |
| ShockEngine.ShockGuards | contingency-desk/engine.py:28-63 | a shock goes through if and only if today's price, every lending value and every client's wealth are nonzero and every client is known |
| ShockEngine.ShockRaises | contingency-desk/engine.py:28-63 | a shock raises a division by zero for today's price or a lending value, else the exception of the first position whose client is unknown or without wealth |
| ShockEngine.EvaluateReads | contingency-desk/engine.py:66-94 | evaluating a trigger raises if and only if it is not deterministic, or names an unknown variable, facility or operator; otherwise it finds the comparison of the resolved value with the armed level |
| ShockEngine.HitMeansHolds | contingency-desk/engine.py:77-94 | a readable trigger is hit exactly if the observed value stands to the armed level, or else the drafted one, as its operator says |
| ShockEngine.ResolveReads | contingency-desk/engine.py:66-74 | a trigger variable is Brent itself, or the LTV or the headroom of the facility it names, and an unknown facility raises its name |
| ShockEngine.BreachedExactlyWhenShort | contingency-desk/engine.py:39-46 | breached if and only if the headroom is used up and the lending value positive; below zero the headroom is short and the flag unset |
| ShockEngine.HeadroomIsRoom | contingency-desk/engine.py:39-45 | adding the headroom to the loan lands on the trigger, and a further loan breaches exactly from the headroom on |
| ShockEngine.CureIsLeast | contingency-desk/engine.py:43-45 | the cure is zero unless breached, and the least repayment after which the LTV is not above the trigger |
| ShockEngine.CureLandsOnTrigger | contingency-desk/engine.py:43-45 | paying exactly the cure lands on the trigger LTV, which still reads as breached |
| FactorModel.FitMinimises | contingency-desk/verify.py:50-64 | the beta minimises the squared residual through the origin, uniquely, by exactly (b' - b)^2 times the sum of squares |
| FactorModel.FitDefined | contingency-desk/verify.py:50-64 | a fit exists if and only if some factor return is nonzero, and r2 never exceeds 1 |
| FactorModel.BetaToBrentFits | contingency-desk/verify.py:50-64 | the whole function: it raises exactly for a zero price before the last, gives no beta exactly when the factor never moved, and otherwise the unique least-squares beta of y, where each y times the price before is the change of the price, with the r2 of that fit, at most 1 |
| FactorModel.ExactPricesGiveTheirBeta | contingency-desk/verify.py:50-64 | prices that follow the factor exactly at some beta give that beta back, with an r2 of 1 if any |
| FactorModel.R2Explains | contingency-desk/verify.py:59-63 | r2 is missing exactly if the returns are constant; else 1 - r2 is the share the line leaves of the least spread about a constant, so it is 1 exactly for an exact line and 0 exactly if the line leaves it all |
| FactorModel.BrentTrigger | contingency-desk/verify.py:121-144 | the loop's sums, the closed-form level when C is nonzero, the target lending value and the collateral move, or the division by zero |
| FactorModel.PrecomputedIsExact | contingency-desk/verify.py:121-144 | LV0 + C m equals revaluing every leg at its own beta and summing |
| FactorModel.TriggerLevelUnique | contingency-desk/verify.py:138-139 | the LTV equals the trigger at the solved Brent level and at no other |
| FactorModel.BreachedBeyondTrigger | contingency-desk/engine.py:38-43 | while the lending value is positive a facility is breached exactly at or below the level for C > 0, at or above it for C < 0 |
| FactorModel.LtvPlanFires | contingency-desk/plans/build_plans.py:23-25 | a trigger LTV > x evaluates to true exactly beyond the Brent level solved for x |
| FactorModel.OfflineClient | contingency-desk/verify.py:178-192 | the loop keeps the moves over 1000 USD, sums and sorts them |
| FactorModel.LargeKeeps | contingency-desk/verify.py:183-188 | exactly the moves of more than 1000 USD either way are kept, each as often as it was there |
| FactorModel.OfflineDeltaClose | contingency-desk/verify.py:184-191 | dropping small moves costs at most 1000 USD for each one dropped |
| FactorModel.SortMovesLarge | contingency-desk/verify.py:185-192 | dropping small moves before the stable sort or after it comes to the same |
| FactorModel.OfflineClientAgrees | contingency-desk/verify.py:174-192 | for every client of a shocked market: the engine's moves without the small ones, in its order, and a delta within 1000 USD per move left out |
| FactorModel.OfflineAgrees | contingency-desk/verify.py:193-197 | offline and engine agree on lending value, LTV, trigger and breach of every facility |
| FactorModel.AtBrentInverts | contingency-desk/plans/build_plans.py:39-48 | at the level solved for an LTV the recomputed LTV is that one |
| FactorModel.QuotedCuresReachSeventy | contingency-desk/plans/build_plans.py:39-48 | the quoted cash cure, the quoted gap in lending value and the quoted top-up at its advance rate each restore exactly 70 per cent |
| RateLimiter.RedisRateLimiter.Allow | MySingHacks/services/gateway/internal/httpapi/ratelimit.go:24-40 | the script's increment and expiry on one key, other keys untouched |
| RateLimiter.LifetimeBound | MySingHacks/services/gateway/internal/httpapi/ratelimit.go:24-40 | in the life of a counter exactly the first `limit` requests are let through |
| RateLimiter.SlidingBound | MySingHacks/services/gateway/internal/httpapi/ratelimit.go:24-40 | in any half-open interval one window long at most 2 limit - 1 requests of a key are let through, in every run with non-decreasing times |
| RateLimiter.ClosedSlidingBound | MySingHacks/services/gateway/internal/httpapi/ratelimit.go:24-40 | counting both end points of the interval, at most 2 limit, and one less where a counter is still served in its deadline millisecond |
| RateLimiter.SlidingBoundIsTight | MySingHacks/services/gateway/internal/httpapi/ratelimit.go:24-40 | some run reaches the half-open bound if and only if the window is at least 2 ms or the limit is 1 |
| RateLimiter.ClosedSlidingBoundIsTight | MySingHacks/services/gateway/internal/httpapi/ratelimit.go:24-40 | for every limit and every window of a millisecond or more some run reaches the closed bound |
| RateLimiter.InstantBound | MySingHacks/services/gateway/internal/httpapi/ratelimit.go:24-40 | in any one millisecond at most limit requests of a key are let through, which is all that a window of 1 ms allows |
| RateLimiter.DegenerateConfigs | MySingHacks/services/gateway/internal/httpapi/ratelimit.go:24-40 | no positive limit lets nothing through; a window below a millisecond lets everything through |
| Embeddings.OntoIsPermutation | MySingHacks/services/gateway/internal/knowledge/embeddings.go:88-100 | pigeonhole: n numbers that hit each of 0..n-1 hit each once and nothing else |
| Embeddings.Embed | MySingHacks/services/gateway/internal/knowledge/embeddings.go:80-100 | succeeds exactly when the indices are a permutation of the inputs and no vector is empty, slot i then holds the vector tagged i, the counts are blamed exactly when they differ, and each other error names its first offender |
| Embeddings.ReorderingIsHarmless | MySingHacks/services/gateway/internal/knowledge/embeddings.go:86-100 | reordering the response changes neither acceptance nor result |

## Left out

- ShockEngine.Evaluate: does not model `distance_pct` and the rendered expression, which only presentation reads; the expression is rebuilt where firing logs it.
- PlanLifecycle.ArmedVsNow: does not model the list of projected items, which is copied from the body unchanged.
- CanonicalJson.SameTree: is finer than Python's `==`, which does not tell 1, 1.0 and True apart; they are different trees here, as they are in print.
- Desk.RunApp: navigation, notices, the selected plan and the widget keys cleared on reset are not modelled; two browser sessions never share a state, so lost updates do not arise.
- TicketSystem.Apply: transport failures of starting and querying a workflow are not modelled; closing a run from outside stands for the execution timeout, cancellation and termination.
- Gateway.TemporalService.Decide: does not model the 64-bit overflow of a duration, which needs an approval window of centuries.
- RateLimiter.RedisRateLimiter.Allow: Redis errors and the `rate:` prefix of keys are left out; whether a key is still served in its deadline millisecond is a parameter, and every result holds for both answers.
- Embeddings.Embed: the HTTP exchange and decoding before the count check are not modelled.
- Sanitizing, safety flags, retrieval, read tools, prompts and the content of model answers: any answer is allowed.
- Retry backoff and time spent in task queues: outside the time budget.
- Float rounding, NaN and infinities in the shock engine: reals are used; the printer covers their lexemes.
- Loading CSV and JSON files, the emission of positions, the fixed income weight after a sale and the numbering of hops in the plan texts: finite data or a single expression.
- The Chroma and in-memory knowledge stores, authentication, routing, health checks and worker start-up: thin glue around the parts above.
