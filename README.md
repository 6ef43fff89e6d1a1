# MuseTaia core, modelled in Dafny

MuseTaia runs a "Sovereign Muse": a swarm of agents that plans content,
generates identity-locked images and videos, checks them against the Muse's
reference face, and keeps a ledger of what the production costs. This project
models the deterministic core of that system and proves properties of it.
Generative models, storage and the network are parameters of the model.

- **Production pipeline** (`WorkflowEngine`, `Critic`). The pipeline runs
  narrative, then prompt optimisation, then a reference download. It then
  makes up to `max_retries` rounds of generate-then-verify, and finally builds
  the video and stages it. The Critic's verdict is a threshold rule on a face
  similarity score. The pipeline method returns the calls it made, so call
  order and call counts can be stated.
- **Ledger** (`StateModels`, `FinanceSchemas`, `DbAccess`, `Ledger`).
  - The Redis state store is a class holding the mood and a wallet map keyed
    by address.
  - The ledger is a class holding a per-address, append-only history.
  - Recording a transaction debits or credits the wallet's internal USD
    balance and appends one record.
- **Arithmetic rules** (`CostCalculator`, `Strategist`, `RevenueOptimizer`,
  `TrendScout`). Cost estimates, the ROI gate, compute arbitration and the
  Viral Velocity Score all use exact reals.
- **Planning and parsing** (`Orchestrator`, `MasterSync`, `A2APipe`,
  `NarrativeArchitect`, `ComfyWorkflow`, `Scheduler`):
  - intent decomposition;
  - Master command parsing;
  - the agent-to-agent context pipe;
  - production-node planning;
  - the ComfyUI node graph;
  - the proactive scheduler's scan loop.
- **Registries** (`MatrixModels`, `WorldDna`, `WardrobeDna`, `Anchors`,
  `Workers`, `Registry`):
  - the DNA context string and record defaults;
  - world, wardrobe, anchor and worker registries.
- **Helpers** (`AudioStream`, `VisualStream`, `CreationSteps`,
  `ProductionFeed`):
  - transcript extraction and the stream summary;
  - two dashboard rules: pipeline step status and the bounded production
    feed upsert.

`Common` holds `Option`, `Result`, substring containment, ASCII
lower-casing, `sep.join` and dictionary-lookup helpers.

## Model

| member | source | states |
|---|---|---|
| Critic.VerifyConsistency | app/agents/critic_agent.py:33-70 | Consistent iff the comparator score is at least 0.75. A consistent report has no failures and is APPROVED. An inconsistent one has exactly one `face`/`inpaint` failure of severity 1 - score and is REPAIR_REQUIRED. The drift score is the comparator output, the semantic score is 0.85, and the decision is never REJECTED. |
| Critic.FailureSeverityBounds | app/agents/critic_agent.py:53-60 | For a score in [0, 1], every failure's severity lies in (0.25, 1]. |
| Critic.DecisionDeterminesConsistency | app/agents/critic_agent.py:50-62 | The report is consistent iff the decision is APPROVED. |
| WorkflowEngine.FirstApproved | app/core/workflow_engine.py:54-65 | Finds the first attempt in range whose candidate passes the Critic. Every earlier attempt fails. None means no attempt in range passes. |
| WorkflowEngine.ProduceVideoContent | app/core/workflow_engine.py:29-86 | The result and the call trace equal the pipeline specification `Pipeline`. |
| WorkflowEngine.AttemptCallsShape | app/core/workflow_engine.py:54-59 | n attempts make exactly n generate calls and n verify calls, alternating. All generate calls use one prompt and subject. Verify call i checks candidate i against the reference. |
| WorkflowEngine.GenerationBound | app/core/workflow_engine.py:54-59 | The generator is called at most max(max_retries, 0) times. The Critic is called exactly as many times as the generator. |
| WorkflowEngine.NoRetriesNoImage | app/core/workflow_engine.py:54-68 | With max_retries <= 0 the run fails and no image is generated. |
| WorkflowEngine.SuccessIsFirstApproved | app/core/workflow_engine.py:60-86 | The run succeeds iff there is a first passing attempt within the budget and its candidate is non-empty. On success the poster is the candidate of the first passing attempt, k + 1 images were generated, the video is the director's output for it, title and caption come from the script, and the review path is the staging output. On failure the error is the consistency failure. |
| WorkflowEngine.FailureSkipsVideoAndStaging | app/core/workflow_engine.py:67-68 | A failed run makes no director call and no staging call. |
| WorkflowEngine.StagesInOrder | app/core/workflow_engine.py:41-56 | The first three calls are the narrative, the optimisation of its script, and the download of `muses/{subject}/face.png`. No narrative, optimisation or download call recurs later, and every generation uses the same optimised prompt and subject. |
| StateModels.NewMood | app/state/models.py:7-13 | Construction succeeds iff valence is in [-1, 1] and arousal and dominance are in [0, 1]. The result keeps the given fields. |
| StateModels.DefaultMood | app/state/models.py:9-13 | The default mood has zero valence, arousal and dominance and no thought. |
| StateModels.NewWallet | app/state/models.py:15-20 | Construction succeeds iff the balance is non-negative. Otherwise it fails with an out-of-range error on `balance`. |
| StateModels.DefaultWallet | app/state/models.py:17-20 | The default wallet has balance 0, currency SOL and internal balance 0. |
| FinanceSchemas.ParseTransactionType | app/core/schemas/finance.py:8-10 | Exactly `income` and `expense` parse, and each parses back to its own value. |
| FinanceSchemas.TypeValueRoundTrip | app/core/schemas/finance.py:8-10 | Rendering a type and parsing it gives the type back. |
| FinanceSchemas.NewTransaction | app/core/schemas/finance.py:19-28 | Construction succeeds iff the amount is strictly positive. Currency defaults to USD and metadata to an empty map, and the given fields are kept. |
| FinanceSchemas.NewSolvencyCheck | app/core/schemas/finance.py:30-35 | The circuit breaker defaults to inactive. |
| DbAccess.WalletKey | app/state/db_access.py:34 | A wallet key is the `smos:state:wallet:` prefix followed by the address. |
| DbAccess.WalletKeyInjective | app/state/db_access.py:34-44 | Distinct addresses have distinct keys. |
| DbAccess.StateManager.constructor | app/state/db_access.py:12-15 | The store starts empty. |
| DbAccess.StateManager.GetMood | app/state/db_access.py:17-25 | Returns the stored mood, or the default mood when none is stored. |
| DbAccess.StateManager.UpdateMood | app/state/db_access.py:27-30 | Stores the mood stamped with the current time and leaves the wallets unchanged. |
| DbAccess.StateManager.GetWallet | app/state/db_access.py:32-40 | Returns None for an unknown address. Otherwise it returns the wallet stored under that address, whose own address is that address. |
| DbAccess.StateManager.UpdateWallet | app/state/db_access.py:42-46 | Stores the stamped wallet under its address. Every other address and the mood stay unchanged. |
| DbAccess.MoodRoundTrip | app/state/db_access.py:17-30 | Updating then reading the mood returns its valence, arousal, dominance and thought. |
| DbAccess.WalletRoundTrip | app/state/db_access.py:32-46 | Updating then reading a wallet returns it with the new timestamp. |
| Ledger.ApplyTx | app/core/services/ledger_service.py:50-53 | An expense lowers the balance by exactly the amount and an income raises it by exactly the amount. For a valid transaction the change is strict. |
| Ledger.ApplyAllIsOpeningPlusSum | app/core/services/ledger_service.py:50-55 | After any sequence of transactions the balance is the opening balance plus the sum of the signed amounts. |
| Ledger.SumSignedFront | app/core/services/ledger_service.py:50-55 | The signed sum splits off its first transaction. |
| Ledger.LRange | app/core/services/ledger_service.py:68 | Redis LRANGE on a list: the result is never longer than the list. |
| Ledger.HistoryWindowIsSuffix | app/core/services/ledger_service.py:65-74 | The history read is a suffix of the history. count >= 1 gives the last min(count, n) entries in order. count 0 gives the whole list. A negative count drops the first -count entries. |
| Ledger.LedgerService.constructor | app/core/services/ledger_service.py:17-20 | The ledger starts with an empty history over the given store. |
| Ledger.LedgerService.RecordTransaction | app/core/services/ledger_service.py:22-63 | It fails iff the amount is non-positive (the transaction error) or the wallet is unknown (`WalletNotFound`). On failure nothing changes. On success it returns the new transaction and writes back only that wallet, with the internal balance moved by the signed amount and a new timestamp. It also appends exactly that transaction to that address's history. Internal balance minus history sum is preserved, and the mood is untouched. |
| Ledger.LedgerService.GetTransactionHistory | app/core/services/ledger_service.py:65-74 | Returns the history window of the last `count` entries of that address. |
| Ledger.RecordAsWritten | app/core/services/ledger_service.py:46-53 | On a declared-shape store recording never succeeds. The failure is the missing `internal_usd_balance` attribute exactly when the amount is positive and the wallet exists. |
| Ledger.AsWrittenNeverRecords | app/core/services/ledger_service.py:46-53 | On wallets shaped as `app/state/models.py` declares them, recording always fails. A positive amount on an existing wallet fails on the missing `internal_usd_balance` attribute. |
| Ledger.AsWrittenCounterexample | app/core/services/ledger_service.py:50-53 | For one concrete wallet and a 5.0 expense, the declared-shape store fails on the missing attribute. The corrected ledger records it and leaves an internal balance of 5.0. |
| CostCalculator.Pricing | app/core/finance/cost_calculator.py:9-24 | A model has a pricing entry iff it is one of the four priced models. |
| CostCalculator.PricingRatesNonNegative | app/core/finance/cost_calculator.py:9-24 | Every listed rate is non-negative. |
| CostCalculator.EstimateTextCost | app/core/finance/cost_calculator.py:30-38 | An unpriced model costs a flat 0.01 whatever the token counts. Non-negative token counts cost a non-negative amount. |
| CostCalculator.EstimateImageCost | app/core/finance/cost_calculator.py:41-46 | An unpriced model costs 0.03 per image. A non-negative count costs a non-negative amount. |
| CostCalculator.EstimateVideoCost | app/core/finance/cost_calculator.py:49-54 | An unpriced model costs a flat 0.50 whatever the duration. A non-negative duration costs a non-negative amount. |
| CostCalculator.MediaModelTextCostIsZero | app/core/finance/cost_calculator.py:36-37 | A model without token rates has a text cost of 0, because missing rates count as 0. |
| CostCalculator.TextCostIsLinear | app/core/finance/cost_calculator.py:36-38 | For a priced model, doubling both token counts doubles the text cost. |
| CostCalculator.ReferenceFigures | app/core/finance/cost_calculator.py:9-54 | 10000 in and 1000 out tokens on the pro model cost 0.01625. Two Imagen images cost 0.06, and 5 seconds of Veo cost 0.50. |
| Strategist.EvaluateRoi | app/agents/strategist.py:62-65 | A zero cost is the division error, and every other cost gives a verdict. |
| Strategist.EvaluateProductionRoi | app/agents/strategist.py:67-69 | Gives the same answer as `evaluate_roi` on every input. |
| Strategist.RoiPositiveCost | app/agents/strategist.py:62-65 | At a positive cost the gate passes iff score > 50 x cost. |
| Strategist.RoiNegativeCost | app/agents/strategist.py:62-65 | At a negative cost the gate passes iff score < 50 x cost. |
| Strategist.RoiStrictAtThreshold | app/agents/strategist.py:65 | A ratio of exactly 50 fails. |
| Strategist.NoScoreNoReturn | app/agents/strategist.py:65 | A non-positive score never passes at a positive cost. |
| RevenueOptimizer.CpmFor | app/agents/revenue_optimizer.py:37 | The CPM is the niche's entry when there is one. A missing table or niche gives 10.0. |
| RevenueOptimizer.ArbitrateCompute | app/agents/revenue_optimizer.py:34-42 | The result is one of the two pipelines. |
| RevenueOptimizer.PremiumIff | app/agents/revenue_optimizer.py:39-42 | The premium pipeline is chosen iff CPM > 30 and VVS > 70. |
| RevenueOptimizer.UnknownNicheIsOptimized | app/agents/revenue_optimizer.py:37-42 | A niche without a CPM always gets the optimised pipeline. |
| RevenueOptimizer.ThresholdsAreStrict | app/agents/revenue_optimizer.py:40 | CPM 30 or VVS 70 gives the optimised pipeline. |
| RevenueOptimizer.MonotoneInScore | app/agents/revenue_optimizer.py:40 | Raising the score never leaves the premium pipeline. |
| TrendScout.RawScore | app/agents/trend_scout.py:47 | The score is avg/100 capped at 10, and it is non-negative for a non-negative average. |
| TrendScout.Classify | app/agents/trend_scout.py:46-52 | Peaking iff score > 7, Rising iff 3 < score <= 7, Stagnant iff score <= 3. |
| TrendScout.Vvs | app/agents/trend_scout.py:32-33 | No signals give score 0, Stagnant and engagement 0. |
| TrendScout.CalculateVvs | app/agents/trend_scout.py:27-58 | Equals the specification `Vvs`. For non-empty signals the fields are the rounded capped score, the classification of the unrounded score and the rounded average. |
| TrendScout.TotalEngagementNonNegative | app/agents/trend_scout.py:35-40 | With non-negative metrics the total engagement is non-negative. |
| TrendScout.TotalEngagementAppend | app/agents/trend_scout.py:36-40 | The total engagement of two signal lists is the sum of their totals. |
| TrendScout.ScoreBounds | app/agents/trend_scout.py:35-52 | With non-negative metrics the unrounded score lies in [0, 10]. The reported acceleration is the classification of that unrounded score, and the reported score is its two-place rounding. |
| TrendScout.ClassifiesUnroundedScore | app/agents/trend_scout.py:47-57 | The classification uses the unrounded score. An engagement of 700.4 reports score 7.0 yet is Peaking, while 7.0 itself is Rising. |
| Scheduler.Intent | app/core/scheduler.py:49 | The production intent starts with `Create content about ` and contains the topic and the summary. |
| Scheduler.OutcomeFor | app/core/scheduler.py:58-69 | An outcome records its own topic. |
| Scheduler.ScanAndActivate | app/core/scheduler.py:27-73 | The results and the calls equal the specification `Scan`. |
| Scheduler.HighTopics | app/core/scheduler.py:45 | The HIGH topics are never more than the topics. |
| Scheduler.ScanShape | app/core/scheduler.py:41-71 | Every topic is analysed exactly once, in order. Production runs exactly once per HIGH topic, in order. There is one result per HIGH topic: `produced` with the output, or `failed` with the error. |
| Scheduler.SkippedTopicChangesNothing | app/core/scheduler.py:45-56 | A topic that is not HIGH adds no result and no production. |
| Orchestrator.NewSubTask | app/agents/orchestrator.py:7-12 | A new subtask has no dependencies and keeps the given fields. |
| Orchestrator.DecomposeIntent | app/agents/orchestrator.py:24-67 | The plan keeps the intent and has 3 subtasks when the lower-cased intent mentions `campaign` or `launch`, else 2. The `cso` task comes first iff it is present. The narrative task depends on task_1 iff that exists, and the visual task is last and depends on task_2. Every dependency names an earlier task, and ids are distinct. |
| MasterSync.ParseSource | app/agents/protocols/master_sync.py:8-12 | Exactly `human`, `community` and `system` parse, and each parses back to its own value. |
| MasterSync.ParseCommand | app/agents/protocols/master_sync.py:26-65 | No or empty override gives HUMAN, and an invalid override is an error. `create_post` iff the text has both `create` and `post`; then `fashion` sets the topic. Otherwise `execute_vote` iff `vote` is in the text or `community` is in the override; then `tokyo` sets the destination. Anything else is `unknown` with no parameters. The priority is always 1. |
| MasterSync.NotContainedInShorter | app/agents/protocols/master_sync.py:56 | A string never contains a longer one. |
| MasterSync.CommunityOverrideMeansCommunitySource | app/agents/protocols/master_sync.py:44-57 | If parsing succeeds and the override text mentions `community`, the override is exactly `community`. |
| A2APipe.NewContext | app/agents/protocols/a2a_pipe.py:9-14 | A context keeps source, target and payload, with empty metadata. |
| A2APipe.Wrap | app/agents/protocols/a2a_pipe.py:20-27 | Wrapping records source and target unchanged, with empty metadata. |
| A2APipe.Unwrap | app/agents/protocols/a2a_pipe.py:29-33 | The target receives the payload as sent. Addressing and metadata are dropped. |
| A2APipe.UnwrapWrapDict | app/agents/protocols/a2a_pipe.py:26-33 | Unwrapping a wrapped dictionary gives it back. |
| A2APipe.UnwrapWrapPlain | app/agents/protocols/a2a_pipe.py:26-33 | Unwrapping a wrapped plain value gives `{"data": value}`. |
| A2APipe.WrapIsInjective | app/agents/protocols/a2a_pipe.py:20-33 | Among values of the same kind, equal unwrapped payloads mean equal data. |
| A2APipe.PlainAndDataDictCoincide | app/agents/protocols/a2a_pipe.py:26 | Across kinds the round trip loses information: a plain value and `{"data": value}` unwrap alike. |
| NarrativeArchitect.FittingInterrupts | app/agents/narrative_architect.py:28-30 | The number of interrupts that fit is never more than the number given. |
| NarrativeArchitect.InterruptNodesArePrefix | app/agents/narrative_architect.py:28-36 | The emitted interrupts are the first ones whose trigger time (i+1)·8 is before the duration. Each is `high` and carries its action. |
| NarrativeArchitect.TriggerTimesIncrease | app/agents/narrative_architect.py:28-36 | Emitted trigger times strictly increase. |
| NarrativeArchitect.PlanProductionNodes | app/agents/narrative_architect.py:15-45 | There are 2 + (fitting interrupts) nodes. The first is `visual_gen` of the title with the hook intensity, the last is `motion_gen` with the duration and tempo curve, and the interrupt nodes lie between. |
| ComfyWorkflow.EnhancedPromptShape | app/core/services/comfy_workflow.py:29-34 | The prompt stays whole at the front, and is unchanged without parameters. A non-empty look adds `, {look} style` and a non-empty lighting adds `, {lighting} lighting`. |
| ComfyWorkflow.EnhancedPromptCases | app/core/services/comfy_workflow.py:29-34 | For a parameters mapping the result is exactly the prompt, then `, {look} style` if a look is given, then `, {lighting} lighting` if a lighting is given. An empty mapping, or one without a non-empty look or lighting, leaves the prompt unchanged. |
| ComfyWorkflow.IdentityLockedWorkflow.constructor | app/core/services/comfy_workflow.py:14-15 | The builder keeps the given checkpoint. |
| ComfyWorkflow.IdentityLockedWorkflow.Default | app/core/services/comfy_workflow.py:14 | The default checkpoint is the SDXL base model. |
| ComfyWorkflow.IdentityLockedWorkflow.GraphNodes | app/core/services/comfy_workflow.py:37-113 | The nodes are exactly 1-8, 10 and 11, plus 9 iff a pose is given. Node 1 loads the builder's checkpoint and node 2 encodes the enhanced prompt. PuLID and FaceID both read the face master image, with their own weights. |
| ComfyWorkflow.IdentityLockedWorkflow.GraphPoseWiring | app/core/services/comfy_workflow.py:112-123 | Without a pose the sampler draws on the FaceID model. With one, node 9 applies ControlNet on the FaceID model at strength 0.7 and the sampler is rewired to it. No other node changes. |
| ComfyWorkflow.IdentityLockedWorkflow.BaseGraphLinksResolve | app/core/services/comfy_workflow.py:37-109 | Every link of the base graph names one of its nodes. |
| ComfyWorkflow.IdentityLockedWorkflow.GraphLinksResolve | app/core/services/comfy_workflow.py:37-123 | Every link of the final graph names one of its nodes. |
| ComfyWorkflow.IdentityLockedWorkflow.BuildWorkflow | app/core/services/comfy_workflow.py:17-125 | The returned graph is the specified `Graph`, and all its links resolve. |
| MatrixModels.VoiceLines | app/matrix/models.py:29 | One `- k: v` line per guideline, in mapping order. |
| MatrixModels.MoralLines | app/matrix/models.py:30 | One `- m` line per moral, in list order. |
| MatrixModels.ToContextString | app/matrix/models.py:23-37 | The context string opens with the identity header followed by the backstory section. It closes with the moral-graph marker and the moral lines. |
| MatrixModels.ContextSectionsInOrder | app/matrix/models.py:32-37 | The context string starts with the identity header. The backstory, voice and moral markers occur in that order. |
| MatrixModels.ContextMentionsEveryLine | app/matrix/models.py:29-37 | Every guideline line and every moral line occurs in the context string. |
| MatrixModels.EmptyMoralGraphEndsWithMarker | app/matrix/models.py:30-36 | With no morals the string ends with the moral-graph marker. |
| MatrixModels.NewWorldObject | app/matrix/models.py:40-46 | Properties default to empty. |
| MatrixModels.NewWorldLocation | app/matrix/models.py:49-56 | Recurring objects default to empty. |
| MatrixModels.NewIdentityAnchor | app/matrix/models.py:59-66 | The embedding defaults to empty and the creation time is the given time. |
| MatrixModels.NewWardrobeItem | app/matrix/models.py:69-75 | Tags default to empty. |
| MatrixModels.NewSceneProp | app/matrix/models.py:78-84 | A prop is recurring by default. |
| WorldDna.ObjectLines | app/matrix/world_dna.py:40-43 | One `- name: description` line per resolved object. |
| WorldDna.WorldRegistry.constructor | app/matrix/world_dna.py:9-11 | The registry starts empty. |
| WorldDna.WorldRegistry.RegisterLocation | app/matrix/world_dna.py:13-15 | Stores or replaces the location under its id and leaves the objects unchanged. A new id joins the listing order, and a replaced one keeps its place. |
| WorldDna.WorldRegistry.RegisterObject | app/matrix/world_dna.py:17-19 | Stores or replaces the object under its id and leaves the locations unchanged. |
| WorldDna.WorldRegistry.GetLocation | app/matrix/world_dna.py:21-23 | Returns the location iff its id is registered. |
| WorldDna.WorldRegistry.GetObject | app/matrix/world_dna.py:25-27 | Returns the object iff its id is registered. |
| WorldDna.WorldRegistry.ListLocations | app/matrix/world_dna.py:29-31 | Lists every registered location exactly once, in registration order. |
| WorldDna.WorldRegistry.GetLocationContext | app/matrix/world_dna.py:33-52 | Equals the specification `LocationContext`. |
| WorldDna.DistinctCardinality | app/matrix/world_dna.py:29-31 | A duplicate-free order listing a set has the set's size. |
| WorldDna.UnknownLocationHasEmptyContext | app/matrix/world_dna.py:35-37 | An unknown location's context is empty. |
| WorldDna.KnownLocationContext | app/matrix/world_dna.py:39-52 | A known location's context lists name, description and lighting, then the objects, or `None` if none resolve. |
| WorldDna.ContextListsResolvedObjects | app/matrix/world_dna.py:40-52 | Every registered recurring object's line occurs in the context, and unregistered ids are skipped. |
| WorldDna.UnlistedObjectLeavesContext | app/matrix/world_dna.py:17-43 | Registering an object the location does not list leaves its context unchanged. |
| WardrobeDna.WithTagMembers | app/matrix/wardrobe_dna.py:25-27 | The filtered list holds exactly the items whose tags contain the tag. |
| WardrobeDna.WithTagSnoc | app/matrix/wardrobe_dna.py:25-27 | One more item is appended to the result iff it carries the tag; the earlier results are kept. |
| WardrobeDna.WithTagDistributes | app/matrix/wardrobe_dna.py:25-27 | The filter distributes over concatenation, so it keeps the order of the items. |
| WardrobeDna.ItemLines | app/matrix/wardrobe_dna.py:31-36 | One `- name: description` line per resolved item. |
| WardrobeDna.PropLines | app/matrix/wardrobe_dna.py:38-41 | One `- name: description` line per resolved prop. |
| WardrobeDna.WardrobeRegistry.constructor | app/matrix/wardrobe_dna.py:9-11 | The registry starts empty. |
| WardrobeDna.WardrobeRegistry.RegisterItem | app/matrix/wardrobe_dna.py:13-14 | Stores or replaces the item and leaves the props unchanged. A new id joins the order. |
| WardrobeDna.WardrobeRegistry.RegisterProp | app/matrix/wardrobe_dna.py:16-17 | Stores or replaces the prop and leaves the items unchanged. |
| WardrobeDna.WardrobeRegistry.GetItem | app/matrix/wardrobe_dna.py:19-20 | Returns the item iff its id is registered. |
| WardrobeDna.WardrobeRegistry.GetProp | app/matrix/wardrobe_dna.py:22-23 | Returns the prop iff its id is registered. |
| WardrobeDna.WardrobeRegistry.Items | app/matrix/wardrobe_dna.py:26 | Lists every registered item exactly once, in registration order. |
| WardrobeDna.WardrobeRegistry.ListByTag | app/matrix/wardrobe_dna.py:25-27 | Lists exactly the registered items carrying the tag. The list is the order-keeping filter `WithTag` of the items in registration order. |
| WardrobeDna.WardrobeRegistry.GetLookContext | app/matrix/wardrobe_dna.py:29-46 | Equals the specification `LookContext`. |
| WardrobeDna.LookDefaults | app/matrix/wardrobe_dna.py:43-46 | The outfit line reads `Default` when no item resolves, and the props line reads `None` when no prop resolves. |
| WardrobeDna.UnknownIdsAreSkipped | app/matrix/wardrobe_dna.py:31-41 | An unknown item or prop id leaves the context unchanged. |
| WardrobeDna.LookListsResolved | app/matrix/wardrobe_dna.py:31-46 | Every resolved item and prop appears in the context. |
| Anchors.ForMuseMembers | app/matrix/anchors.py:16-18 | The filtered list holds exactly the anchors registered for that Muse. |
| Anchors.AnchorRegistry.constructor | app/matrix/anchors.py:9-10 | The registry starts empty. |
| Anchors.AnchorRegistry.RegisterAnchor | app/matrix/anchors.py:12-14 | Appends exactly the anchor and keeps all earlier ones, without deduplication. |
| Anchors.AnchorRegistry.GetAnchorsForMuse | app/matrix/anchors.py:16-18 | Returns exactly the anchors registered for that Muse. |
| Anchors.AnchorRegistry.GetAnchorByType | app/matrix/anchors.py:20-25 | None iff no anchor matches both Muse and type. Otherwise it returns the first registered anchor that matches. |
| Anchors.RegisterExtendsMuseList | app/matrix/anchors.py:12-18 | Registering an anchor appends it to its own Muse's list and changes no other Muse's list. |
| Anchors.ForMuseDistributes | app/matrix/anchors.py:16-18 | Filtering preserves registration order across concatenation. |
| Workers.NewWorker | app/agents/base_worker.py:16-19 | The constructor keeps agent id and agent type unchanged. |
| Workers.ValidateCapability | app/agents/base_worker.py:25-27 | True iff the skill equals the agent type. |
| Workers.CapabilityIsUnique | app/agents/base_worker.py:25-27 | A worker validates at most one skill. |
| Workers.NewWorkerValidatesItsType | app/agents/base_worker.py:16-27 | A new worker validates its own type and nothing else. |
| Workers.NewWorkerOutput | app/agents/base_worker.py:7-11 | Artifacts default to an empty list. |
| Registry.WorkerRegistry.constructor | app/agents/registry.py:9-10 | The registry starts empty. |
| Registry.WorkerRegistry.RegisterWorker | app/agents/registry.py:12-14 | Binds or replaces the skill's class. Other skills are unchanged. |
| Registry.WorkerRegistry.GetWorkerInstance | app/agents/registry.py:16-21 | An unregistered skill is the error. Otherwise it returns a worker of the registered class, with the given id, whose type is the skill and which passes `validate_capability(skill)`. |
| Registry.RegisterThenInstantiate | app/agents/registry.py:12-21 | After registering C for s, instantiating s yields a C worker with that id and type s. |
| AudioStream.Texts | app/agents/handlers/audio_stream.py:33-34 | Only non-empty part texts are kept, and there are none iff no part has text. |
| AudioStream.ExtractTranscript | app/agents/handlers/audio_stream.py:15-39 | None iff no part carries non-empty text. Otherwise the result is the texts joined by single spaces. |
| AudioStream.MissingStructureYieldsNone | app/agents/handlers/audio_stream.py:29-39 | A missing server content, turn or parts list yields None. |
| AudioStream.TranscriptHasEveryText | app/agents/handlers/audio_stream.py:33-35 | Every non-empty part text occurs in the transcript. |
| AudioStream.TextsHasEach | app/agents/handlers/audio_stream.py:33 | Every non-empty part text is kept. |
| AudioStream.SinglePartTranscript | app/agents/handlers/audio_stream.py:33-35 | A single non-empty part is its own transcript. |
| AudioStream.PrepareAudioInput | app/agents/handlers/audio_stream.py:41-54 | Exactly one chunk, with mime `audio/pcm` and the data unchanged. |
| VisualStream.SummarizeStreamWindow | app/agents/handlers/visual_stream.py:66-71 | The summary is `No visual input.` iff the window is empty. A single description gives `Recent activity: ` followed by it. |
| VisualStream.SummaryShape | app/agents/handlers/visual_stream.py:66-71 | The summary is `No visual input.` iff there are no descriptions. Otherwise it is `Recent activity: ` followed by the descriptions joined with ` \| `. |
| VisualStream.SummaryMentionsEach | app/agents/handlers/visual_stream.py:69-71 | Every description occurs in the summary. |
| VisualStream.SummaryExtends | app/agents/handlers/visual_stream.py:69-71 | A further description appends ` \| ` and itself. |
| CreationSteps.IndexOf | frontend/src/components/creation/CreationLobe.tsx:109-110 | `indexOf`: the first position of the element, or -1 iff absent. |
| CreationSteps.GetStepStatus | frontend/src/components/creation/CreationLobe.tsx:107-115 | The step named by the lower-cased stage is active. At stage `complete` every other known step is complete. |
| CreationSteps.StatusByPosition | frontend/src/components/creation/CreationLobe.tsx:107-115 | A step is complete iff the stage index is greater than the step index, active iff they are equal, and pending otherwise. |
| CreationSteps.CaseInsensitive | frontend/src/components/creation/CreationLobe.tsx:110 | The stage is compared case-insensitively. |
| CreationSteps.LowerIdempotent | frontend/src/components/creation/CreationLobe.tsx:110 | Lower-casing twice equals lower-casing once. |
| CreationSteps.UnknownStageIsPending | frontend/src/components/creation/CreationLobe.tsx:110-114 | With an unknown stage every known step is pending. |
| CreationSteps.RenderedStepsAreOrdered | frontend/src/components/creation/CreationLobe.tsx:107-115 | With a known stage, a rendered step that is not pending has only complete steps before it. At most one rendered step is active. |
| ProductionFeed.FindIndex | frontend/src/components/dashboard/CreationLobe.tsx:19 | `findIndex`: the first position with the id, or -1 iff none. |
| ProductionFeed.Upsert | frontend/src/components/dashboard/CreationLobe.tsx:18-26 | The payload is in the new feed. The feed grows beyond its previous length only up to 3. |
| ProductionFeed.ReplaceInPlace | frontend/src/components/dashboard/CreationLobe.tsx:19-23 | A present id has its first match replaced in place, with the same length and every other element unchanged. |
| ProductionFeed.InsertInFront | frontend/src/components/dashboard/CreationLobe.tsx:25 | An absent id puts the payload first, followed by the earliest previous elements, min(n + 1, 3) in all. |
| ProductionFeed.UpsertThenFind | frontend/src/components/dashboard/CreationLobe.tsx:19-25 | After the upsert the payload is found under its id. |
| ProductionFeed.UpsertIdempotent | frontend/src/components/dashboard/CreationLobe.tsx:19-25 | Applying the same update twice equals applying it once. |
| ProductionFeed.UpsertKeepsLimit | frontend/src/components/dashboard/CreationLobe.tsx:21-25 | A feed of at most 3 stays at most 3. |

## Findings

| source | as written | input that shows it | evidently intended | confidence | as-written member | corrected member |
|---|---|---|---|---|---|---|
| app/core/services/ledger_service.py:50-53 | The ledger reads and writes `wallet.internal_usd_balance`, but the `Wallet` model (app/state/models.py:15-20) declares no such field. Pydantic drops the extra key when a wallet is loaded, so every record on an existing wallet raises `AttributeError`. | A stored wallet `addr` with internal balance 10.0, and an expense of 5.0 | The wallet carries an internal USD balance that the transaction debits, leaving 5.0 | not executed | Ledger.AsWrittenCounterexample | Ledger.LedgerService.RecordTransaction |

`Ledger.RecordAsWritten` and `Ledger.AsWrittenNeverRecords` model the code as
written. The rest of the model gives `Wallet` an `internalUsd` field, defaulting
to 0.

## Left out

- Critic.VerifyConsistency: the severity is the exact `1 - score`. The source rounds it to four places, so a score just under 0.75 can report a severity of exactly 0.25.
- Default arguments: `max_retries=3`, the history `count=50` and the image `count=1` are the constants `WorkflowEngine.DefaultMaxRetries`, `Ledger.DefaultHistoryCount` and `CostCalculator.DefaultImageCount`. Every modelled call passes the value explicitly.
- StateModels.NewMood: when several ranges fail, the error names only the first field in declaration order. Pydantic's validation error lists every failing field.
- CostCalculator.EstimateTextCost: the cost is exact. The source rounds it to six places.
- TrendScout.CalculateVvs: `round(x, 2)` is an abstract parameter function, because the model works on exact reals, not floats.
- Floating point in general: every float is an exact real.
- Redis and JSON:
  - The store and the history are class fields, and JSON encoding is not modelled.
  - Access is sequential. There is no WATCH/MULTI optimistic commit, which the source does not have either.
- Timestamps and uuids are plain inputs; the clock and the uuid generator are not modelled. This includes `IdentityAnchor.created_at`.
- Model calls and other collaborators are function parameters:
  - the narrative agent, prompt optimiser, visual agent, director, EIC staging and the Critic's comparator;
  - the scheduler's trend scanner and engine;
  - the GCS download (`SignatureAssetsManager.download_asset` is not part of this model).
- The image generator's nondeterminism is modelled as a call index: the k-th call returns `generate(prompt, subject, k)`.
- Exceptions raised by collaborators:
  - They are not modelled, except production failures in the scheduler, which are a `Result` parameter.
  - The audio handler's `except` branch is unreachable in the typed message model.
- RevenueOptimizer: the monetisation matrix file is an input. File access and `match_sponsorships` are not part of this model.
- The LLM-backed members are not part of this model: the strategist's `plan_mission`, the Critic's `detect_mask_area` and the trend scout's `scout_and_filter`.
- Python `str.lower()` and JavaScript `toLowerCase()` are modelled on ASCII letters only.
- Scheduler.Intent: the sentiment is rendered as its value string. The f-string rendering of a `str` enum differs between Python versions.
- ComfyWorkflow:
  - Node ids are naturals, not decimal strings.
  - Each node is a typed constructor rather than an untyped input dictionary.
- Dictionary insertion order is kept as an explicit order sequence in the world and wardrobe registries.
- MatrixModels: voice guidelines are a sequence of pairs, which gives the mapping's order.
- Registry.WorkerRegistry.GetWorkerInstance: extra `**kwargs` are not passed on. Worker classes are names, and `execute_task` (abstract) is not modelled.
- WorkflowEngine: the rejection log line reads `report.issues`. The report schema module `app/core/schemas/qa.py` is not part of this model, and the model assumes that read succeeds.
- CreationSteps.GetStepStatus: an unknown step with an unknown stage compares -1 with -1, so the step is `active`. The model keeps this.
