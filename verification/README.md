# runNburn: decoding, cache, stream and memory models

runNburn decodes with one plain loop and several fast ones. The fast loops let a drafter
propose tokens, verify a window of them on the target, keep a prefix and roll the rest
back. This project models those loops, the key/value cache under them, the two streaming
text filters, two parsers and two memory policies, and proves what they are for.

**Decoding.** `Model` describes a target by arbitrary functions: a state holds one K/V row
per consumed token and a recurrent part; both the next row and the logits read the whole
state, so a stale recurrent part changes everything after it. A request carries an
arbitrary sampler, stop set and client callback. `Model.Plain` is what target-only decoding
returns, and `PlainDecode` proves the plain loop computes it. `StopRule` says over the
request's own fields what that is: the one sequence in which every token is the target's
choice at its place, none stops or follows a declined one, and which ends for a stated
reason; `LoopStops` proves the stop rule of every run of every loop. `EngineState.Engine` is the
mutable engine: rows past the length stay in the buffer, `SetLen` moves the length alone,
and the recurrent part is repaired only by checkpoints, recorded prefix states or replay.
Every fast loop is a method over this engine with an arbitrary drafter:
`MtpGenerate.Generate` (five verify executions and the verified runway),
`SpecGenerate.Generate` (sequential and batch verify), and `DrafterLoops.Generate` (DFlash,
DSpark and the external drafter, told apart by how each round commits its window). Each is
proved to compute a run function (`MtpRun.RunOf`, `SpecRun.SpecRunOf`,
`DraftedRun.DraftedRunOf`) that follows the code's own branches, shortcuts and stale states
included, and each run function is proved against `Plain`, for every drafter, callback, stop
set, depth and budget.

The fast loops do not return the plain output for every request. The loop theorems carry
conditions on flags, configuration and drafter that can be read off before a call, and for
each loop the conditions are proved exact over all requests, with a run that goes wrong for
each way of missing them (`MtpLimits` and `MtpExactness`, `SpecLimits`, `DraftedLimits`;
`Scripts` holds the material of the counterexamples). Two loops also have error returns,
and for both it is exact which configurations always return something. A drafter is called
obedient if it gives as many drafts as it is asked for; the in-model loop refuses any other
number.

- In-model loop: a replay goes on from the raw argmax, a full round without a bonus row
  from the greedy token, and a runway draft is drawn without the unread runway in its
  context; `MtpRun.Lossless` asks for greedy requests there, and for the EOS not to be
  ignored where a replay can happen. With a runway, a stop token drafted two or more places
  past the emit limit ends the run and drops the accepted drafts before it
  (`MtpLimits.StopCutsShort`): nothing is lost exactly when the runway is at most one draft
  deep, or no token stops, or every token does (`MtpExactness.RunwayExact`). A run can lose
  one token less than the runway is deep and no more (`MtpDepth`). Sampling on the
  Vulkan full path is an error, and so is cutting a batch-prefill window outside the
  checkpointed class, which only windows of one token never need
  (`MtpExactness.ReturnsExact`).
- Early-exit loop: it never reads `ignore_eos`, draws a rejected draft again, and cuts a
  recurrent target outside the sequentially verified class by length alone, which includes
  Nemotron-H targets (`crates/rnb-llm/src/speculative.rs:1351-1370`). `SpecEos`,
  `SpecRedraw` and `SpecStale` hold the failing runs, and `SpecLimits.SpecExact` the condition.
  Greedy batch verify without bonus rows is an error when a round drafts nothing or the
  client declines a full window's last draft with budget left; `SpecDecline` holds the
  failing run, `SpecLimits.SpecReturnsExact` the condition.
- Separate drafters: a round without drafts ends the run early, and a prefill verify cuts by
  length. `DraftedLimits.DraftedExact` says which drafters and commits serve every request.

`Sessions` puts the loops together: turns that resume the state captured after the turn
before, start afresh, or fail, each by any of the loops, answer exactly what their loop
returns after replaying their prompts into an empty cache, and they resume whenever their
prompts go on from the last transcript.

**Cache.** `KvCache` is the F16 cache down to its buffers: writes at a position, growth,
truncation by length, indexer rows, recurrent states, checkpoints and snapshots.
`LayerBuffers` is the write of one layer on its two arrays, in place. `CacheRefinement` maps
the cache to the sequence state of the loops and proves that the engine's operations are
what the buffers do.

**Text.** `TextStop` and `TurnFilter` are the streaming filters, `GemmaGrammar` and
`GemmaParser` the tool-argument language and its cursor parser. `TurnText` and
`GemmaSpacing` spell out, in literal characters, what a user sees of a text and what a text
with any white space in it reads back as. Text is a sequence of
Unicode scalar values; on valid UTF-8 a substring search over bytes finds the same places.
For `TextStopFilter` independence of the chunking is false in general: with the stops "abc"
and "b", the chunks "ab", "c" send "a" and the chunk "abc" sends nothing.
`TextStop.ChunkingIndependent` gives the exact condition on the stops.

**Loader and memory.** `SidecarFormat` and `SidecarReader` are the MTP1 sidecar file, with
64-bit overflow written out; `ByteLru` is the LRU accounting with its lazily deleted heap,
a wrapping clock and saturating sums; `Residency` is the residency planner. In `Residency`
a ranked pair of index and candidate is represented by the index, and the standard sort by
an insertion sort over the same order.

## Model

| member | source | states |
|---|---|---|
| Model.FeedAllRows | crates/rnb-llm/src/kv_cache.rs:818-823 | the rows of a longer run begin with the rows of every shorter one, which is why truncating the K/V length can undo tokens |
| Model.PlainExtends | crates/rnb-llm/src/generate.rs:828-872 | plain decoding only appends to what was generated and never exceeds its budget |
| StopRule.PlainExact | crates/rnb-llm/src/generate.rs:812-884 | plain decoding returns the one sequence that goes on from what was generated within its budget, in which every token is the one chosen at its place, none is a stop token or an EOS that is not ignored, none follows a token the client declined, and which is over because the budget is spent, the client declined or such a stop comes next |
| StopRule.PlainProper | crates/rnb-llm/src/generate.rs:136-138 | no stop token goes out, no EOS unless it is ignored, and nothing after the client declined |
| StopRule.IgnoredEosStaysIn | crates/rnb-llm/src/generate.rs:148-165 | an ignored EOS never goes out when the sampler can keep from it: the argmax that excludes it, or a draw from logits with it suppressed |
| PlainDecode.FinishGeneration | crates/rnb-llm/src/generate.rs:812-884 | the plain loop returns the specified run, which is the one that `StopRule.IsRun` describes over the request's fields, and leaves the engine holding all of it, or all but its last token |
| PlainDecode.GenerateWithTokens | crates/rnb-llm/src/generate.rs:522-568 | prefilling only the uncached suffix from a matching cache gives the output and final state of prefilling everything |
| PlainDecode.SettledTokens | crates/rnb-llm/src/engine/state.rs:249-314 | a settled cache is the run of a prefix of the turn's tokens, at most one of them short |
| PlainDecode.ResumeState | crates/rnb-llm/src/generate.rs:522-568 | feeding the uncached rest of a prompt to the cache of a prefix reaches the state of the whole prompt |
| Sessions.Capture | crates/rnb-llm/src/engine/state.rs:249-314 | a state is captured exactly when the cache is not empty and not longer than the tokens; a settled cache never is longer, and what is captured of one can be resumed |
| Sessions.KeptResumes | crates/rnb-llm/src/engine/state.rs:318-358 | capture and resume: a settled cache, fed the rest of any later prompt that begins with its turn's tokens, reaches that prompt's state |
| Sessions.Prefill | crates/rnb-llm/src/generate.rs:394-568 | a turn resumes exactly when the captured tokens begin its prompt and less than all of it is cached, and either way the engine ends on the whole prompt |
| Sessions.RouteProper | crates/rnb-llm/src/generate.rs:394-460 | whatever loop a turn takes, exact or not, its answer keeps the stop rule and obeys the client |
| Sessions.Answer | crates/rnb-llm/src/generate.rs:394-568 | one turn by any loop, resumed, fresh or failed: its answer is exactly what its loop returns from the state of its whole prompt in an empty cache (a resumed early-exit turn is decoded plainly), it answers where the loop has no error return, and the state it hands on can be resumed |
| Sessions.Converse | crates/rnb-cli/src/server/response_output.rs:298-367 | over a whole session every turn after turns that settled their caches answers what its loop returns on a fresh replay, whatever loops the turns mix; a turn resumes only behind the transcript last answered, and always when its prompt goes on from one of two tokens or more |
| EngineState.Engine.Forward | crates/rnb-llm/src/engine/inference.rs:2393-2532 | feeding a token appends its row, steps the recurrent part and answers with the logits of the new state |
| EngineState.Engine.Restore | crates/rnb-llm/src/speculative.rs:92-115 | restoring a checkpoint truncates to its length and puts its recurrent part back |
| EngineState.Engine.RestorePrefix | crates/rnb-llm/src/engine/inference.rs:1347-1473 | a recorded prefix state truncates to the prefix and replaces or steps the recurrent part |
| EngineState.Engine.Load | crates/rnb-llm/src/engine/state.rs:318-358 | a captured state is put in place whole |
| EngineState.Engine.CommitWindow | crates/rnb-llm/src/engine/decode_inference.rs:1049-1130 | committing the first lanes of a window appends their rows and takes the last lane's recurrent part, and is refused, changing nothing, for no lanes, too many, or a moved base |
| EngineState.CutWindow | crates/rnb-llm/src/speculative.rs:1378-1391 | cutting a verified window by length gives the prefix's rows, and its recurrent part only for targets without one |
| Rounds.GreedyRound.Observe | crates/rnb-llm/src/mtp_sampling.rs:51-79 | one draft against one target: reject, stop, accept or emit, with the counters that follow |
| Rounds.GreedyRound.AfterEmit | crates/rnb-llm/src/mtp_sampling.rs:84-92 | an emit spends one token of budget, and the round goes on only if the client agrees and budget is left |
| Rounds.GreedyMatchedPrefix | crates/rnb-llm/src/mtp_sampling.rs:122-128 | the count of leading equal tokens |
| Rounds.TwoPhaseEqualsOnePass | crates/rnb-llm/src/mtp_sampling.rs:51-128 | finding the matching prefix first and replaying it gives the tokens, budget and stop flag of observing the window in one pass, and when the round did not end all matched drafts were emitted |
| MtpVerify.JudgeWindow | crates/rnb-llm/src/mtp_generate.rs:1193-1229 | the judging loop over a window computes the sequential verdict, sampling only where a draft is reached |
| MtpVerify.JudgeAccounted | crates/rnb-llm/src/mtp_generate.rs:1193-1229 | a verdict emits a prefix of the drafts within limit and budget, accepts at least that, spends exactly the emitted tokens, and ends exactly when it says |
| MtpVerify.JudgeRunway | crates/rnb-llm/src/mtp_generate.rs:1515-1622 | every draft accepted past the emit limit is what greedy decoding picks at its place and is no stop token |
| MtpVerify.JudgeFaithful | crates/rnb-llm/src/mtp_generate.rs:1193-1289 | for any sampler, what a round emits is what plain decoding emits from the same generator state, and what remains is plain decoding from the correction or the bonus row |
| MtpRoutes.RouteAvailable | crates/rnb-llm/src/mtp_generate.rs:445-518 | a round has the snapshot or checkpoint its route needs exactly when it runs on the device, cuts nothing, or the class takes checkpoints, and it says exactly which cuts are replayed, restored over a checkpoint, or restored from a snapshot |
| MtpRoutes.ReplayCommitted | crates/rnb-llm/src/speculative.rs:1459-1489 | replaying from the checkpoint leaves the engine on exactly the committed prefix and answers with its raw argmax |
| MtpRoutes.RestoreCommitted | crates/rnb-llm/src/mtp_generate.rs:1761-1803 | restoring a recorded prefix, over the checkpoint where one is needed, leaves K/V rows and recurrent part on exactly the committed prefix |
| MtpRoutes.LargestRound | crates/rnb-llm/src/mtp_generate.rs:1108-1125 | a round emits as many drafts as were asked for and fit the budget, the eight tokens of a fused decode chain, the one draft of the full path, and the one of the class verified sequentially |
| MtpRoutes.LargestRunway | crates/rnb-llm/src/mtp_generate.rs:562-583 | beyond those it verifies as many drafts as budget, confidence and the set limit or twice the emitted ones allow, only on the device with the runway on |
| MtpRounds.ChainRound | crates/rnb-llm/src/mtp_generate.rs:1173-1291 | a batched decode chain round emits the verdict, commits the accepted lanes and hands on the next token |
| MtpRounds.VulkanRound | crates/rnb-llm/src/mtp_generate.rs:1294-1401 | a full-path round ends on exactly the accepted prefix, by restoring and prefilling it again when it cuts |
| MtpRounds.CutBack | crates/rnb-llm/src/mtp_generate.rs:1719-1803 | whichever route is planned, the engine ends on the committed prefix; the round fails exactly without the checkpoint or snapshot it needs, and the next token comes from a replay exactly for recurrent targets of the checkpointed class off CUDA that cut after an accepted draft |
| MtpRounds.WindowRound | crates/rnb-llm/src/mtp_generate.rs:1404-1820 | a batch-prefill or device round emits the verdict, keeps K/V and recurrent part coherent, and hands on exactly the next token the configuration calls for: a replay's raw argmax, the greedy token without a bonus row, the mismatch or a draw |
| MtpRounds.SequentialRound | crates/rnb-llm/src/mtp_generate.rs:1822-1985 | a token-by-token round emits the verdict and ends on the accepted prefix, one short of it only when it ends on an emit |
| MtpRounds.FeedLastDraft | crates/rnb-llm/src/mtp_generate.rs:1626-1641 | a full round without a bonus row feeds its last draft and goes on from the greedy token, the generator untouched |
| MtpGenerate.VerifiedRunway.PopEmit | crates/rnb-llm/src/mtp_generate.rs:591-625 | the runway yields its tokens in order and then the token to resume from |
| MtpRun.RunwayHead | crates/rnb-llm/src/mtp_generate.rs:1073-1106 | the runway's head is the plain run's next token and never a stop token |
| MtpRun.RoundContinues | crates/rnb-llm/src/mtp_generate.rs:1702-1714 | after a continuing round the engine has consumed prompt, generated and unread runway tokens, and the resume token is the target's choice after them |
| MtpRun.NextIsTargets | crates/rnb-llm/src/mtp_generate.rs:1626-1753 | under the lossless condition every source of a next token, replay and no-bonus ones included, gives the target's own choice |
| MtpGenerate.RunwayTurn | crates/rnb-llm/src/mtp_generate.rs:1073-1106 | emitting from the runway takes the specified run one step, without touching the engine |
| MtpGenerate.Loop | crates/rnb-llm/src/mtp_generate.rs:1071-1985 | the loop computes the specified run from any first token, over every pass, runway or round, and without a runway leaves a settled cache |
| MtpGenerate.Generate | crates/rnb-llm/src/mtp_generate.rs:1040-1990 | for any drafter, callback, stop set, depth and budget the loop returns the specified run's tokens or error, and if lossless delivers the plain run as `MtpRun.RunDelivers` says; without a runway the cache holds all of it or all but the last token |
| MtpRun.RunDelivers | crates/rnb-llm/src/mtp_generate.rs:1040-1990 | a lossless run returns a prefix of the plain output; what is missing is a run of accepted drafts, fewer than the runway is deep, with a stop token chosen right behind them inside the budget |
| MtpRun.ShallowRunDelivers | crates/rnb-llm/src/mtp_generate.rs:562-590 | with a runway of at most one draft a lossless run returns the plain output |
| MtpRun.FullRunDelivers | crates/rnb-llm/src/mtp_generate.rs:1515-1622 | a lossless run whose plain output fills the budget returns all of it |
| MtpDepth.DepthReached | crates/rnb-llm/src/mtp_generate.rs:562-583 | the bound on what is missing is reached: for every configuration with a runway and every stop set that stops some token but not all, a greedy request whose run keeps back one accepted draft less than the runway is deep |
| LoopStops.MtpProper | crates/rnb-llm/src/mtp_generate.rs:1071-1985 | every run of the in-model loop, exact or not, keeps the stop rule and obeys the client |
| MtpRun.NeverErrs | crates/rnb-llm/src/mtp_generate.rs:1046-1060 | for an obedient drafter every run returns unless it samples on the Vulkan full path or its batch prefill, outside the checkpointed class, has windows of more than one token |
| MtpLimits.ReplayFails | crates/rnb-llm/src/mtp_generate.rs:1735-1753 | wherever a replay can happen, some sampling request and some greedy one that ignores its EOS get another output, because the replay goes on from the raw argmax |
| MtpLimits.NoBonusFails | crates/rnb-llm/src/mtp_generate.rs:1626-1641 | wherever a round can go without a bonus row, some sampling request gets another output |
| MtpLimits.RunwayFails | crates/rnb-llm/src/mtp_generate.rs:1702-1714 | wherever there is a runway and every round has its bonus row, some sampling request gets another output, because the token after it was drawn without it in context |
| MtpLimits.StopCutsShort | crates/rnb-llm/src/mtp_sampling.rs:65-79 | for any runway of two or more drafts, a concrete run in which a stop past the emit limit drops an accepted token |
| MtpExactness.ErrFails | crates/rnb-llm/src/mtp_generate.rs:1761-1778 | for every configuration with an error return and any flags that reach it, a request that comes to it under an obedient drafter |
| MtpExactness.ReturnsExact | crates/rnb-llm/src/mtp_generate.rs:1046-1060 | every request with given flags gets an answer, for every obedient drafter, callback, stop set and budget, exactly when the configuration has no error return for them |
| MtpExactness.MtpExact | crates/rnb-llm/src/mtp_generate.rs:1040-1990 | for every obedient drafter, callback, stop set and budget: what a configuration returns for requests with given flags is always the plain output exactly when it admits the flags, and every run returns the plain output exactly when it admits them and has no error return for them |
| MtpExactness.RunwayExact | crates/rnb-llm/src/mtp_generate.rs:1515-1622 | on the device, greedy requests with a given stop set all get their plain output, errors excluded, exactly when the runway is at most one draft deep, no token stops, or every token does |
| SpecGenerate.DraftAndRestore | crates/rnb-llm/src/speculative.rs:640-750 | drafting on the target and restoring leaves its state as it was |
| SpecGenerate.SequentialVerify | crates/rnb-llm/src/speculative.rs:793-900 | incremental verify emits the verdict and leaves the target on the accepted prefix |
| SpecGenerate.CommitBatch | crates/rnb-llm/src/speculative.rs:1036-1181 | a batch round leaves the committed prefix, by replay, for targets of the sequential class, and for others exactly the state of a length cut: the prefix's rows, the whole window's recurrent part; either way it returns the logits of the committed prefix |
| SpecGenerate.CloseNoBonus | crates/rnb-llm/src/speculative.rs:1033-1077 | full acceptance without a bonus row fails exactly when budget is left and the client declined the last draft or there was no draft; otherwise the last draft is fed and the next token is the greedy one |
| SpecGenerate.BatchVerify | crates/rnb-llm/src/speculative.rs:755-1260 | a batch round, with or without a bonus row, gives exactly the specified result, errors included, and leaves the specified state |
| SpecGenerate.Generate | crates/rnb-llm/src/speculative.rs:556-1308 | the early-exit loop returns exactly the specified run, errors included; when no recurrent window is cut by length it leaves a settled cache, and when besides no redraw makes a difference it returns the plain run of the request without `ignore_eos` |
| SpecRun.VerdictContinues | crates/rnb-llm/src/speculative.rs:1186-1300 | what a continuing round hands on continues the plain run when redrawing a rejected draft makes no difference |
| SpecRun.SpecRunDelivers | crates/rnb-llm/src/speculative.rs:556-1308 | for every drafter, callback, stop set, depth and budget, a run that cuts no recurrent window by length and draws no draft twice to a difference returns the plain output of the request without `ignore_eos` |
| LoopStops.SpecProper | crates/rnb-llm/src/speculative.rs:624-636 | every run of the early-exit loop keeps the stop rule, never emits the EOS even when it is to be ignored, and obeys the client |
| SpecRun.NeverSpecErrs | crates/rnb-llm/src/speculative.rs:1033-1077 | outside the greedy batch mode without bonus rows every run returns |
| SpecDecline.DeclineFails | crates/rnb-llm/src/speculative.rs:1033-1077 | for every configuration in that mode, whatever the other flags, a greedy request that ends in an error: its client declines the last draft of a full window, or the window has no draft |
| SpecEos.EosFails | crates/rnb-llm/src/speculative.rs:624-632 | for every configuration, a request that ignores its EOS and gets another output |
| SpecRedraw.RedrawFails | crates/rnb-llm/src/speculative.rs:1186-1300 | for every configuration that drafts, a sampling request that gets another output because a rejected draft is drawn again |
| SpecStale.StaleFails | crates/rnb-llm/src/speculative.rs:1351-1391 | for every configuration that cuts recurrent state by length, a greedy request that gets another output |
| SpecLimits.SpecReturnsExact | crates/rnb-llm/src/speculative.rs:1033-1077 | every request with given flags gets an answer, for every drafter, callback, stop set and budget, exactly when it is not greedy, the mode without bonus rows is off, or verify is sequential |
| SpecLimits.SpecExact | crates/rnb-llm/src/speculative.rs:556-1308 | what a configuration returns for requests with given flags is always the plain output exactly when the EOS is not ignored, drafting is off or the request greedy, and no recurrent window is cut by length; every run returns the plain output exactly when besides there is no error return |
| IgnoreEos.IgnoreEosExact | crates/rnb-llm/src/speculative.rs:629-632 | plain decoding without the flag is plain decoding with it, for all requests that carry it, exactly when the flag is off |
| DrafterRounds.SampleWindowPrefix | crates/rnb-llm/src/mtp_generate.rs:203-264 | the sampling loop draws at each position in order, up to the first draft it does not match |
| DrafterRounds.SampledMatches | crates/rnb-llm/src/mtp_generate.rs:203-264 | drawing all targets first and replaying the matching prefix gives the one-pass verdict, generator state included |
| DrafterRounds.GreedyIsOnePass | crates/rnb-llm/src/mtp_generate.rs:2665-2755 | for greedy requests the one-pass verdict is the observation of the window's argmaxes |
| DrafterRounds.EmitAccepted | crates/rnb-llm/src/mtp_generate.rs:2685-2724 | replaying the accepted prefix emits up to the stop, the client or the budget |
| DrafterLoops.WindowDrafted | crates/rnb-llm/src/mtp_generate.rs:2625-2755 | a window round reports the target's verdict and correction and leaves in the engine exactly what its commit kind keeps of the drafts it fed |
| DrafterLoops.TokenwiseDrafted | crates/rnb-llm/src/mtp_generate.rs:3204-3292 | the external drafter's token-by-token verify keeps the same promise |
| DrafterLoops.FinishWithTarget | crates/rnb-llm/src/mtp_generate.rs:2440-2497 | the hand-over to plain target decoding after the burst rounds continues the same run |
| DrafterLoops.Generate | crates/rnb-llm/src/mtp_generate.rs:2057-3400 | for any drafter, sampler and choice of commits round by round the loop returns exactly the specified run, the plain output when no reachable round starves and no recurrent window is cut by length, and leaves a settled cache when besides no round commits from the device |
| DraftedRun.CorrectionFaithful | crates/rnb-llm/src/mtp_generate.rs:2625-2755 | for any sampler, the correction is the token the plain run goes on with after the emitted drafts |
| DraftedRun.DraftedRunDelivers | crates/rnb-llm/src/mtp_generate.rs:2057-3400 | when no recurrent window is cut by length, a run returns the plain output, or the first part of it when a round it reached was asked for drafts and had none |
| LoopStops.DraftedProper | crates/rnb-llm/src/mtp_generate.rs:2057-3400 | every run of the loops with a separate drafter keeps the stop rule and obeys the client |
| DraftedLimits.StarvedFails | crates/rnb-llm/src/mtp_generate.rs:2175-2177 | for every empty answer to a question the loop can ask, a request whose output it cuts short |
| DraftedLimits.LengthCutFails | crates/rnb-llm/src/mtp_generate.rs:2381-2394 | for every length cut of recurrent state the loop can come to, a request whose output it changes |
| DraftedLimits.DraftedExact | crates/rnb-llm/src/mtp_generate.rs:2057-3400 | a drafter and its commits give every request with given flags its plain output exactly when no round the loop can come to has an empty draft and none cuts a recurrent window by length |
| KvCache.WriteReads | crates/rnb-llm/src/kv_cache.rs:113-128 | a write puts exactly its keys and values at its position and changes nothing else in the buffers |
| KvCache.PassAppends | crates/rnb-llm/src/kv_cache.rs:578-600 | appending one pass layer by layer extends what every layer's reader sees by exactly the new rows, and moves the length once |
| KvCache.PassStep | crates/rnb-llm/src/kv_cache.rs:578-600 | each layer's append is one step of the pass; only the last layer's append moves the length |
| KvCache.RunKeeps | crates/rnb-llm/src/kv_cache.rs:55-63 | over any run of operations at or above a position, the rows below it stay, and no F16 buffer shrinks |
| KvCache.RestoreSsmExact | crates/rnb-llm/src/speculative.rs:192-242 | restored recurrent states are the saved ones whatever happened meanwhile, up to the delta of a layer kept on the device |
| KvCache.CheckpointFrame | crates/rnb-llm/src/speculative.rs:45-95 | after any writes at or above the saved length, length changes not below it and recurrent edits, restoring gives a reader exactly what was saved |
| KvCache.RestoreExact | crates/rnb-llm/src/kv_cache.rs:870-939 | an accepted snapshot puts exactly its contents in front of the reader and shrinks no buffer |
| KvCache.SnapshotRoundTrip | crates/rnb-llm/src/kv_cache.rs:829-939 | after any run at all a snapshot is accepted exactly when the number of recurrent layers is unchanged, and restoring it gives back what was snapshotted |
| KvCache.RestoreTakes | crates/rnb-llm/src/kv_cache.rs:829-939 | a cache that accepted a snapshot would be snapshotted as just that, every size included |
| KvCache.KVCache.AppendRows | crates/rnb-llm/src/kv_cache.rs:578-600 | the append changes the cache as the specified step and keeps its room for every position |
| KvCache.KVCache.SetLength | crates/rnb-llm/src/kv_cache.rs:818-823 | truncation moves the length alone and keeps every buffer |
| KvCache.KVCache.Clear | crates/rnb-llm/src/kv_cache.rs:941-952 | clearing forgets every position, fills each recurrent state with zeros at its lengths, kernel and channels, and keeps the buffers |
| KvCache.KVCache.Restore | crates/rnb-llm/src/speculative.rs:92-95 | the in-place restore computes the specified restored cache |
| KvCache.KVCache.RestoreSnapshot | crates/rnb-llm/src/kv_cache.rs:870-939 | a snapshot is accepted exactly when every shape fits; a refused one leaves the whole cache unchanged |
| LayerBuffers.Buffers.WriteRange | crates/rnb-llm/src/kv_cache.rs:211-236 | the write in place on a layer's two arrays is the specified one, and moves neither array when both have room |
| CacheRefinement.PassRefines | crates/rnb-llm/src/kv_cache.rs:578-600 | a pass over any number of positions extends the sequence state by exactly the pass's rows |
| CacheRefinement.PassPhysical | crates/rnb-llm/src/kv_cache.rs:578-600 | of all rows there is room for, a pass changes exactly those at its positions |
| CacheRefinement.MirrorsNow | crates/rnb-llm/src/kv_cache.rs:818-823 | a cache that mirrors an engine stands for the engine's state |
| CacheRefinement.AppendPass | crates/rnb-llm/src/kv_cache.rs:578-600 | appending layer by layer is the specified pass |
| CacheRefinement.Forward | crates/rnb-llm/src/kv_cache.rs:578-600 | on a cache that mirrors the engine, a one-token pass and the recurrent step are the engine's `Forward`, whenever the kernels compute the target's row and step |
| CacheRefinement.ForwardDraft | crates/rnb-llm/src/speculative.rs:640-750 | whatever a draft step's kernels compute, cache and engine hold the same row and recurrent state after it |
| CacheRefinement.CommitWindow | crates/rnb-llm/src/engine/decode_inference.rs:1049-1195 | committing the first lanes appends exactly their rows and takes the last lane's recurrent part in cache and engine; no lanes, too many, a moved base or a full cache is refused with nothing changed |
| CacheRefinement.Clear | crates/rnb-llm/src/kv_cache.rs:941-952 | a cleared cache stands for the empty sequence, whatever it held |
| CacheRefinement.SetLen | crates/rnb-llm/src/kv_cache.rs:818-823 | moving the length hides or exposes the same rows in cache and engine |
| CacheRefinement.Restore | crates/rnb-llm/src/speculative.rs:92-115 | restoring a checkpoint, whatever both held meanwhile, leaves cache and engine in agreement on it |
| CacheRefinement.RestorePrefix | crates/rnb-llm/src/engine/inference.rs:1347-1473 | a recorded prefix state goes over the window's rows in cache and engine alike |
| CacheRefinement.SnapshotAbs | crates/rnb-llm/src/kv_cache.rs:870-939 | an accepted snapshot stands for the sequence state it was taken of |
| CacheRefinement.RestoreSnapshot | crates/rnb-llm/src/engine/state.rs:318-358 | a snapshot restored into any later cache of its layout is the engine's captured state, and a refused one changes nothing |
| TextStop.LeftmostStop | crates/rnb-llm/src/generate.rs:923-928 | the least index at which any stop stands, or none |
| TextStop.HoldBack | crates/rnb-llm/src/generate.rs:937-947 | the longest suffix that begins a stop |
| TextStop.TextStopFilter.Push | crates/rnb-llm/src/generate.rs:918-958 | a push sends and keeps what the specified step says; a refused piece stays pending |
| TextStop.TextStopFilter.Finish | crates/rnb-llm/src/generate.rs:960-967 | finishing sends what is pending and keeps nothing |
| TextStop.StreamTracks | crates/rnb-llm/src/generate.rs:918-967 | for every chunking: while no stop has appeared, sent and pending make up the text and pending is the longest suffix that begins a stop; at the first push that completes a stop exactly the text before its leftmost stop was sent |
| TextStop.NoStopWholeText | crates/rnb-llm/src/generate.rs:960-967 | without a stop in the text, finishing restores the whole text |
| TextStop.OneShotIsPrefix | crates/rnb-llm/src/generate.rs:918-967 | chunked output always extends the output of one push |
| TextStop.ChunkingIndependent | crates/rnb-llm/src/generate.rs:918-967 | output is the same for all chunkings exactly when no proper prefix of a stop holds a stop without also starting with one |
| TextStop.ChunkingMatters | crates/rnb-llm/src/generate.rs:918-967 | a concrete stop list and text whose output depends on the chunking |
| TurnFilter.MessageAfterRecipient | crates/rnb-llm/src/tool_call.rs:60-66 | the recipient slice never starts past its end |
| TurnFilter.AssistantTurnStreamFilter.Push | crates/rnb-llm/src/tool_call.rs:45-83 | a push sends and keeps what the specified step says, and passes the caller's refusal on |
| TurnFilter.AssistantTurnStreamFilter.Finish | crates/rnb-llm/src/tool_call.rs:85-106 | finishing sends undecided plain text and drops an unfinished protocol header |
| TurnFilter.StreamTracks | crates/rnb-llm/src/tool_call.rs:45-122 | in every reachable state the filter has sent nothing and kept all while undecided or inside the protocol, and has sent what a final decision allows afterwards |
| TurnFilter.VisibleOutput | crates/rnb-llm/src/tool_call.rs:45-122 | for every split, the streamed output is what the user should see of the whole text |
| TurnFilter.ChunkingIndependent | crates/rnb-llm/src/tool_call.rs:45-122 | any two splits of one text show the same |
| TurnText.HeaderShown | crates/rnb-llm/src/tool_call.rs:57-76 | for every recipient without the marker, blanks around it or not, and every body: a text of "to=", recipient, message marker and body shows the body when the recipient is "user", and otherwise what stands behind the first marker of a later turn to the user, or nothing; all markers are literal texts |
| TurnText.OtherwiseShown | crates/rnb-llm/src/tool_call.rs:57-106 | a text that has no header is shown as it is, and one whose header never ends shows nothing |
| TurnText.HeaderStreamed | crates/rnb-llm/src/tool_call.rs:45-122 | every split of such a text streams just that |
| GemmaGrammar.StringRoundTrip | crates/rnb-llm/src/tool_call.rs:505-514 | a quoted string comes back exactly when it does not hold the quote marker |
| GemmaGrammar.ValueBack | crates/rnb-llm/src/tool_call.rs:492-579 | a printed value followed by a delimiter or the end reads back as itself and leaves what follows |
| GemmaGrammar.RoundTrip | crates/rnb-llm/src/tool_call.rs:480-579 | parsing the canonical print of any nested value gives the value back, field order included, exactly when it is well formed: valid distinct keys and marker-free strings at every depth |
| GemmaGrammar.ParsedWellFormed | crates/rnb-llm/src/tool_call.rs:516-543 | whatever the input, a parsed value has valid distinct keys and marker-free strings at every depth |
| GemmaGrammar.PrintIsCanonical | crates/rnb-llm/src/tool_call.rs:480-579 | printing an accepted value and parsing again is stable |
| GemmaSpacing.BlankBefore | crates/rnb-llm/src/tool_call.rs:492-503 | spaces, tabs, line feeds, form feeds and carriage returns in front of a value make no difference |
| GemmaSpacing.SpacedRoundTrip | crates/rnb-llm/src/tool_call.rs:480-607 | however a value is laid out, with white space at every brace, bracket, key, colon, comma and end, its text reads back as the value; with more text behind it the parse succeeds exactly when that is blank (behind a scalar, for text that begins with a delimiter) |
| GemmaSpacing.SpacingIsInvisible | crates/rnb-llm/src/tool_call.rs:480-607 | a laid-out text and the canonical print of its value parse alike |
| GemmaSpacing.ScalarRunsOn | crates/rnb-llm/src/tool_call.rs:563-579 | a scalar with text behind it that a parse accepts: that text is part of the scalar |
| GemmaSpacing.KeysExact | crates/rnb-llm/src/tool_call.rs:516-543 | a text can be a key exactly when it is one or more ASCII letters, digits, underscores and hyphens |
| GemmaParser.GemmaValueParser.ParseValue | crates/rnb-llm/src/tool_call.rs:492-503 | the cursor parser terminates on every input, agrees with the grammar, and leaves the offset in bounds and, after a value, further on |
| GemmaParser.GemmaValueParser.ParseObject | crates/rnb-llm/src/tool_call.rs:516-543 | the object loop agrees with the grammar, errors included |
| GemmaParser.GemmaValueParser.ParseArray | crates/rnb-llm/src/tool_call.rs:545-561 | the array loop agrees with the grammar, errors included |
| GemmaParser.GemmaValueParser.ParseComplete | crates/rnb-llm/src/tool_call.rs:480-490 | a complete parse accepts exactly a value followed by white space, as the grammar that `GemmaSpacing.SpacedRoundTrip` spells out |
| SidecarFormat.CheckedProductExact | crates/rnb-loader/src/convert.rs:36-39 | the element count is the product of the dimensions, refused exactly when some partial product overflows |
| SidecarFormat.SizeExact | crates/rnb-loader/src/convert.rs:28-43 | an accepted size is the element count at the type's bytes per block, with nothing lost to the division |
| SidecarFormat.ParseSound | crates/rnb-loader/src/mtp_sidecar.rs:58-158 | on arbitrary bytes every accepted tensor has a distinct valid name, at most four dimensions and data that is an in-bounds slice after the headers of exactly the size its shape and type demand |
| SidecarFormat.EnoughRoom | crates/rnb-loader/src/mtp_sidecar.rs:65-71 | a written file always passes the minimum-header count guard |
| SidecarFormat.RoundTrip | crates/rnb-loader/src/lib.rs:267-378 | parsing a written file gives back the list of tensors it was written from exactly when the format can hold them: distinct valid names, at most four dimensions, known types and sizes to match |
| SidecarFormat.EncodeIsCanonical | crates/rnb-loader/src/mtp_sidecar.rs:58-158 | writing the tensors of any accepted file and parsing again is stable |
| SidecarFormat.WrittenOpens | crates/rnb-loader/src/lib.rs:267-378 | a written file opens with the bytes 77, 84, 80, 49 and the number of tensors in four bytes, least significant first |
| SidecarFormat.AcceptedOpens | crates/rnb-loader/src/mtp_sidecar.rs:58-71 | an accepted file opens with those bytes and holds as many tensors as its count says |
| SidecarReader.SidecarCursor.ReadExact | crates/rnb-loader/src/mtp_sidecar.rs:432-442 | a read is in bounds and moves the cursor past it, or fails with the cursor's range unread |
| SidecarReader.SidecarCursor.ReadHeaders | crates/rnb-loader/src/mtp_sidecar.rs:73-127 | the record loop with its name set reads what the format says, errors in the same order |
| SidecarReader.SidecarCursor.ParseFile | crates/rnb-loader/src/mtp_sidecar.rs:58-158 | the cursor parser accepts exactly what the format accepts, with the same tensors or the same error |
| ByteLru.FittingIsShortestCut | crates/rnb-memory/src/byte_lru.rs:66-73 | eviction drops the shortest oldest-first run that makes the rest fit |
| ByteLru.EarliestIsHead | crates/rnb-memory/src/byte_lru.rs:76-88 | a live stamp that surfaces first from the heap belongs to the oldest item |
| ByteLru.PopHead | crates/rnb-memory/src/byte_lru.rs:76-88 | taking that stamp's key out of map and heap takes the head off the recency list |
| ByteLru.MoveKey | crates/rnb-memory/src/byte_lru.rs:50-64 | touching a key, known or new, moves it to the newest place and changes the total by the difference in bytes |
| ByteLru.DropKey | crates/rnb-memory/src/byte_lru.rs:91-97 | removing a key removes exactly its item, its stale stamps notwithstanding |
| ByteLru.ByteLruPolicy.Touch | crates/rnb-memory/src/byte_lru.rs:50-74 | while no clock wrap or saturation has happened, the list becomes the longest recent run that fits, the evicted keys are the others oldest first, and resident bytes are the sum of the live entries and within the maximum |
| ByteLru.ByteLruPolicy.PopOldest | crates/rnb-memory/src/byte_lru.rs:76-88 | the head of the recency list, or nothing when it is empty; terminates past any number of stale stamps |
| ByteLru.ByteLruPolicy.Remove | crates/rnb-memory/src/byte_lru.rs:91-97 | answers whether the key was present and takes it out |
| Residency.Plan | crates/rnb-memory/src/residency.rs:74-112 | both halves keep the input order and together hold every candidate; one is selected exactly when it fits behind the selected ones that are hotter, or as hot and smaller, or equal in both and earlier; the selected bytes stay within the budget |
| Residency.HottestFirst | crates/rnb-memory/src/residency.rs:80-98 | that rule over the weights, bytes and places themselves; a spilled candidate does not fit behind the selected ones that are at least as hot |
| Residency.GreedyUnique | crates/rnb-memory/src/residency.rs:74-100 | the rule "chosen exactly when it fits after the chosen ones ranked before it" determines the plan |
| Residency.NoSpilledFits | crates/rnb-memory/src/residency.rs:89-98 | no spilled candidate fits in the budget left over |
| Residency.SplitCovers | crates/rnb-memory/src/residency.rs:100-112 | the two halves hold every candidate exactly once |
| Residency.KeepBytes | crates/rnb-memory/src/residency.rs:52-57 | the selected bytes are the bytes of the chosen indices |

## Left out

- Transformer forward passes, kernels and device snapshots: they are arbitrary functions of a target, and engine methods carry the contracts their callers rely on.
- KVarN compressed storage, conversion from f32 to f16, and buffers lent by a device: the cache model holds f16 bits.
- The limit `max_seq_len` in the decoding loops: a pass that would overflow the cache is an error of the engine and is not modelled there; `KvCache` has the bound.
- Drafter-internal state (retention and observation of drafted prefixes) and the confidence cut-offs that shorten a draft: absorbed by the arbitrary drafter.
- Cancellation, draft-only mode, the acceptance probe, timings, statistics and traces: no output guarantee.
- `generate_stream_two_model`: its attention-only case adds nothing to the early-exit loop.
- Mirostat's internal state, grammar constraints and repetition penalties: one arbitrary sampler function of logits, context and generator state stands for them.
- Decoding of tokens to text, and tokenizers: a turn is modelled on token lists.
- EngineState.Engine.CommitWindow: the refusals for a moved sequence cursor and for a wrong number or shape of payloads are not modelled, and the one for capacity only in `CacheRefinement.CommitWindow`; the loops never meet them.
- KvCache.KVCache.AppendRows: the cache object replaces a layer's buffers by their written values; the write of a range in place is `LayerBuffers.Buffers.WriteRange`, for one layer.
- Prefix snapshots in the early-exit loop: they need the model's own heads, whose requests leave for the in-model loop first (`crates/rnb-llm/src/speculative.rs:459-481` and `568-570`).
- MtpExactness.RunwayExact: for greedy requests on the device; `MtpExactness.MtpExact` covers the other configurations, over all stop sets at once.
- CacheRefinement.Forward: the kernels that compute rows and recurrent steps are arbitrary; f16 bits are read as numbers, without the conversion.
- Sessions.Answer: the two text alignments of a resumed prompt, multimodal state and the drafter's own saved state; a prompt is matched by its tokens.
- DrafterLoops.Generate: the three loops share one model; how each forms its window on the device is not modelled.
- EngineState.Engine.Forward: one token at a time; a prefill is the fold of single tokens, so batching effects on rounding are not modelled.
- JSON scalars: the JSON library is an arbitrary reader and writer; the round trip asks that it reads back the scalars it wrote. Error texts are values of a datatype.
- Key order in the heap of the LRU policy: ties between equal clocks, possible only after a clock wrap, are broken arbitrarily.
- UTF-8 validity of tensor names: an arbitrary predicate. `usize` is 64 bits wide.
- The spill total and transfer statistics of the residency module, the name mapping and f16 decoding of the sidecar: easy sums and tables.
- ATEM blocks, JSON tool calls and the final parse of Muse turns: not streamed, and their searches repeat those modelled.
