# Verification of the suffix hybrid's core

A Dafny model of the parts of this repository whose correctness is not visible in any one function,
with proofs about it. `dafny verify dfyconfig.toml` checks everything.

- **Host-memory all-reduce** (`Host*.dfy`). `HostMachine` is a transition system in which ranks, each
  with a grid of blocks, take one load, store or atomic at a time in any order: the two-level barrier
  (arrive counter, per-rank epoch flag polled by equality, local go word), slots that alternate by
  epoch parity, many rounds in a kernel, four kernels sharing flags, slots and epoch counter. Words are
  unbounded numbers observed modulo 2^32. `HostControl` and `HostSteps` hold the barrier invariant,
  `HostData` and `HostDataSteps` that of the data, `HostTheorems` what follows. `HostLive`,
  `HostProgress` and `HostFair` are about progress, `HostStale` and `HostWrap` about wrap-around. `HostKernels` gives
  the kernels' tasks; `HostLegal`, `HostStored` and `HostLayout` show that they meet the protocol's
  requirements and where they lie in memory, `HostCollectives` what every rank is left with, and
  `HostReference` is the CPU side. Additions, roundings and (de)quantization are uninterpreted, so
  rank order means something.
- **Suffix cache** (`Suffix*.dfy`). `SuffixCorpus` and `SuffixDraft` say what a brute-force scan of the
  live sequences means; the class in `SuffixCache` keeps the index and is proved against it.
- **N-gram scan and engine** (`Ngram.dfy`, `Engine*.dfy`).
- **Mixers** (`Mix*.dfy`, `DivergeRow.dfy`, `V2*.dfy`). Rows as functions in `MixRow`, `DivergeRow` and
  `V2Row`, calls in `MixBatch`, `Mixer`, `V2Proposer` and `V2Runs`.
- **Async lag-1 drafting** (`Async*.dfy`): host and device stream as a transition system, the device
  resolve, the scheduler trim.
- **Launch planners** (`WaveSplits`, `SplitTiles`, `RowPlan`) and the **codec** of stored rows
  (`Fp8Codec`, `QuantBlock`, `QuantBound`).
- **Collective autotuning, bands and the compressed all-reduce** (`Autotune*`, `Bands`, `BandText`,
  `Qar*`).

`Wrappers`, `IntMath` and `RealMath` are shared helpers.

Where code and documentation disagree, the code is modelled:

- The suffix gate of the mixer is described as an average of accepted suffix tokens, but it is trained
  only when the native part was rejected, and then with 0 (`src/mixer.rs:601-607`). `MixRow.Good` and
  `MixRow.QualityStays`: it is absent or 0, and once closed it stays closed.
- The per-request budget is described as a learned split of 1..k, but its floor leaves two values, cap
  and cap - 1 (`src/mixer.rs:742-751`, `MixRow.PrefixIs`); a published draft differs from the native
  one in its last two slots at most.
- With the gate closed the tail is appended one slot later than the context it was looked up in
  (`src/mixer.rs:807-815`); `MixRow.AlignedExactly` says when that shows.
- In diverge mode the native filler past a short candidate is in neither proposed counter
  (`DivergeRow.FillerUncounted`).
- The diverge buckets of in-request n-grams are described with borders at orders 8 and 16; the code uses
  16 and 32 for both sources (`src/mixer.rs:40-47`, `DivergeRow.BucketIs`).
- The error bound that the codec's own tests use, sf / 2 + |x| / 4, does not hold for every block:
  `QuantBound.BlockWithin` gives the exact condition on the largest magnitude.
- The documented error of the compressed all-reduce has no floor at 1e-30; the code's scale has one.
  `QarError.FloorNeeded` is an input that exceeds the documented bound, `QarError.ErrorBound` the bound
  that holds, and `QarError.DocumentedBound` and `QarError.PlainExactly` say when the documented one does.
- Equality polling of 32-bit epochs is safe for every sequence of collectives of up to 2^32 - 1 rounds
  and for longer ones that always use the same phases, but not for every sequence: 2^32 - 1 rounds of
  one-shots or all-gathers and then a two-shot is one that fails (`HostStale.SafeExactly`,
  `HostWrap.WrapMisleads`, `HostWrap.SmallCallsMislead`). The protocol theorems assume the exact condition.

## Model

| member | source | states |
|---|---|---|
| `HostTheorems.NoOverwrite` | suffix_hybrid/host_ar.py:182-243 | In every interleaving of any number of ranks, blocks and launches, while a block is in a stage that reads slots of its epoch's parity, no block of any rank is filling slots of that parity for that stage, for whatever epoch |
| `HostTheorems.LoadsCorrect` | suffix_hybrid/host_ar.py:182-243 | Every load of host memory in every reachable state finds a whole cell holding the value intended for the block's own epoch: never torn, never an older or newer round's |
| `HostTheorems.FlagNotMissed` | suffix_hybrid/host_ar.py:150-158 | The flag a poller waits for has not moved past its epoch, and it compares equal, modulo the word size, exactly when that rank has published this barrier |
| `HostTheorems.GoNotMissed` | suffix_hybrid/host_ar.py:159-168 | The same for the rank-local go word: never past the waiter's epoch, equal modulo the word size only when really equal |
| `HostTheorems.LockStep` | suffix_hybrid/host_ar.py:130-168 | Any two blocks of any ranks are at most one barrier apart in every reachable state |
| `HostTheorems.BetweenLaunches` | suffix_hybrid/host_ar.py:141-147 | When a launch has finished on a rank its arrive counters are 0 and its epoch counter has advanced by exactly the rounds launched; no block loads the counter after its own launch advanced it |
| `HostTheorems.OutputsCorrect` | suffix_hybrid/host_ar.py:171-243 | A finished launch has its whole intended output on the rank, and later launches leave it there |
| `HostLive.NeverStuck` | suffix_hybrid/host_ar.py:130-168 | In every reachable state with work left some step is enabled that makes progress, not merely another spin |
| `HostProgress.StepLowers` | suffix_hybrid/host_ar.py:130-168 | Every productive step lowers a well-founded measure, whatever the interleaving |
| `HostProgress.CanFinish` | suffix_hybrid/host_ar.py:130-168 | From every reachable state every rank can still run all launches to their end |
| `HostFair.FairRunsEnd` | suffix_hybrid/host_ar.py:130-168 | On every weakly fair schedule every rank runs every launch to its end, from any moment on, however often pollers start over |
| `HostFair.FindRipe` | suffix_hybrid/host_ar.py:130-168 | While there is work left some rank or block can act and is not waiting for anybody: its next steps lead out of polling |
| `HostFair.StepDrops` | suffix_hybrid/host_ar.py:130-168 | Every step that is not a mere look at a word lowers a measure that polling, restarts included, does not move |
| `HostStale.SafeExactly` | suffix_hybrid/host_ar.py:130-168 | On two ranks or more the barriers hold in every run if and only if no word can still hold, modulo 2^32, the epoch its pollers are about to wait for |
| `HostWrap.FewRounds` | suffix_hybrid/host_ar.py:182-186 | Fewer rounds in all than words have values: the condition of SafeExactly holds |
| `HostWrap.UniformRounds` | suffix_hybrid/host_ar.py:182-186 | Collectives that all use the same barrier phases satisfy it for any number of rounds, wrap-around included |
| `HostWrap.WrapMisleads` | suffix_hybrid/host_ar.py:182-186 | One-barrier collectives, of any sizes and number, that use up all epochs of the word but one, then a two-barrier one: some run passes a barrier that a peer has not reached |
| `HostWrap.SmallCallsMislead` | suffix_hybrid/host_ar.py:182-186 | An instance of ordinary size: 2^32 - 1 one-shots of a single round each, then a two-shot of one |
| `HostCollectives.ProgramLegal` | suffix_hybrid/host_ar.py:171-376 | Every sequence of one-shot, two-shot, int8 and all-gather launches, with any inputs and per-rank grids, meets the requirements of the protocol theorems: cells apart or identical, every load stored a stage before, whole output covered |
| `HostCollectives.AllReduce` | suffix_hybrid/host_ar.py:171-243 | One-shot and two-shot alike leave on every rank, at every element, the rank-order left fold of all inputs rounded once, over any number of rounds and after any earlier collectives |
| `HostCollectives.AllReduceSteps` | suffix_hybrid/host_ar.py:193-243 | Spelled out for every element of a finished one-shot or two-shot: an accumulator that starts at zero, one addition of a rank's widened input a step, ranks 0 to w - 1, rounded once at the end |
| `HostCollectives.QuantAllReduce` | suffix_hybrid/host_ar.py:260-339 | The int8 kernel leaves on every rank, in each round, the same value: the owner's part exact, the others' transported, the sum transported again |
| `HostCollectives.QuantAllReduceSteps` | suffix_hybrid/host_ar.py:260-339 | Spelled out for every element of a finished int8 launch: the accumulators of its group start at zero and take the owner's input as it is and the others' coded and decoded in their group, in rank order; the group of sums is coded and decoded again and rounded |
| `HostCollectives.AllGather` | suffix_hybrid/host_ar.py:341-376 | The all-gather leaves on every rank all inputs in rank order |
| `HostReference.QuantReference` | suffix_hybrid/host_ar.py:635-661 | The torch reference, loop by loop, computes for one round exactly the value that QuantAllReduce delivers |
| `HostReference.RouteSafe` | suffix_hybrid/host_ar.py:394-404 | Whatever the thresholds and overrides, a routed message meets its kernel's requirements, and int8 is not chosen unasked below its threshold or for a one-shot message |
| `HostReference.RoundsAreEpochs` | suffix_hybrid/host_ar.py:407-409 | The policy's round count is the number of epochs a launch consumes |
| `HostLegal.ChunkFits` | suffix_hybrid/host_ar.py:188-192 | Chunks are aligned, together cover the round, and fit a w-th of a slot: ch <= ROUND / WORLD |
| `HostLegal.ChunkIs` | suffix_hybrid/host_ar.py:188-192 | Every element of a round is in the chunk of exactly one rank |
| `HostLegal.TaskGood` | suffix_hybrid/host_ar.py:193-243 | Given the intended inputs, every task of every kernel computes the intended values, with additions in rank order |
| `HostStored.LoadStored` | suffix_hybrid/host_ar.py:296-339 | Every cell that some task loads was stored, by its owner, in the stage before |
| `HostStored.StoredForm` | suffix_hybrid/host_ar.py:260-339 | Every stored cell has its slot's form: codes in the lower half and scales above them do not meet |
| `HostStored.RoundWritten` | suffix_hybrid/host_ar.py:193-243 | Every element of a round is written on every rank by some block |
| `HostLayout.OverlapIsSharing` | suffix_hybrid/host_ar.py:490-531 | Two cells share a byte of the mapping exactly when the model says they overlap, and all lie between the flags and the end of the mapping |
| `HostLayout.KernelCells` | suffix_hybrid/host_ar.py:490-531 | So for any two cells that the kernels store, of any kinds and rounds: they share a byte exactly when parity agrees and they overlap in their slots |
| `HostLayout.FlagsApart` | suffix_hybrid/host_ar.py:65-69 | Flags of different parity, phase or rank are different 64-byte lines below the slots |
| `HostLayout.Pointers` | suffix_hybrid/host_ar.py:290-325 | The kernels' bf16, int8 and fp32 pointer expressions address the model's cells |
| `HostLoops.Strided` | suffix_hybrid/host_ar.py:196-197 | The strided loop of a block visits, in order, exactly the elements that are its share |
| `HostLoops.OwnedLoop` | suffix_hybrid/host_ar.py:193-229 | The loop of a block handles exactly the elements that the kernels' tasks give to it |
| `SuffixCache.Cache.constructor` | src/lib.rs:136-146 | A new cache is empty and its index agrees with it |
| `SuffixCache.Cache.Evict` | src/lib.rs:147-161 | Removes the oldest sequence; every bucket is again the newest capped occurrences of its key in the rest, and keys without any are gone |
| `SuffixCache.Cache.Add` | src/lib.rs:162-192 | The corpus afterwards is the given one without its oldest sequences, as few as the two budgets demand, and with the trimmed tokens last; the index again agrees with a scan, totals and budgets hold |
| `SuffixCache.Cache.Speculate` | src/lib.rs:193-253 | The indexed lookup gives what a brute-force scan of the live corpus defines: longest match among the newest examined occurrences, and the majority draft from it; no dead id, no index out of range |
| `SuffixCache.EvictWindow` | src/lib.rs:152-158 | Cleaning one bucket after another yields the index without the evicted sequence |
| `SuffixCache.AddWindow` | src/lib.rs:180-187 | Pushing one occurrence and popping the front keeps each bucket the newest capped occurrences |
| `SuffixCorpus.KeepLast` | src/lib.rs:152-158 | Dropping the oldest sequence from a capped bucket leaves the capped bucket of the rest, although older occurrences had been cut off before |
| `SuffixCorpus.ExcessLeast` | src/lib.rs:175-178 | Eviction stops at once when the budgets have room, and always reaches that point |
| `SuffixCorpus.RunIsQueue` | src/lib.rs:162-192 | After any run of additions the corpus is the newest part of what was admitted, within both budgets, the newest admitted always in it |
| `SuffixCorpus.AddedIs` | src/lib.rs:162-192 | A sequence is kept exactly when the budgets allow more than n tokens and it has more than n; kept are its last tokens, as many as the budget has, behind what is left of the corpus; otherwise nothing changes |
| `SuffixCorpus.OccurrencesSound` | src/lib.rs:180-187 | The scan that the index is measured against finds exactly the occurrences |
| `SuffixDraft.DraftIsContinuation` | src/lib.rs:193-253 | A non-empty draft continues some live sequence verbatim after a longest examined match, is at most max_tokens long, and has a score in (0, 1] |
| `SuffixDraft.SurvivorsSound` | src/lib.rs:224-247 | The matches left after a draft are those that the whole draft continues, so the telescoped score is their share of the longest matches |
| `SuffixDraft.WinnerIsNewest` | src/lib.rs:224-243 | The drafted token has the most support, and against another of as much it follows a match in a newer sequence, or later in the same one, than any that the other follows |
| `SuffixDraft.LookupCounts` | src/lib.rs:223-252 | In counts of matches that verbatim pieces follow: each prefix of the draft has the required support and no token in its last place more, a draft shorter than its cap ends where no token has the support, and the score times the matches is the number that the whole draft follows |
| `SuffixDraft.CapIs` | src/lib.rs:221-222 | A draft may be as long as asked for and as factor times match length plus offset allows, and no longer |
| `SuffixDraft.ExaminedAre` | src/lib.rs:199-206 | Examined are the newest occurrences, newest first, as many as both limits allow |
| `SuffixDraft.SpeculatedUnique` | src/lib.rs:193-253 | Corpus and context determine draft, score and match length: the order of the hash map does not show |
| `Ngram.Ngram` | src/engine.rs:29-82 | The single backward pass with its early break and recency window returns what the nested search finds |
| `Ngram.NestedSound` | src/engine.rs:29-82 | The nested search finds the longest order in range that recurs, at its latest occurrence other than the suffix itself, and misses only if there is none |
| `Ngram.BestUnique` | src/engine.rs:29-82 | There is only one such order and place |
| `Ngram.HitDraft` | src/engine.rs:29-82 | The draft has at most cap tokens, is empty only on a miss, and scores at most hi / (hi + 1) |
| `Ngram.NgramFinds` | src/engine.rs:29-82 | There is a hit exactly if some order in range recurs in the window; it is of the highest such order at its latest place q tokens before the end, token i of the draft is q - i tokens before the end, min(cap, q) of them, and the score is n / (n + 1) |
| `EngineRows.SkipSafe` | src/engine.rs:167-192 | When the suffix draft reaches the ceiling it is chosen whatever the scan would have found |
| `EngineRows.PreferredIs` | src/engine.rs:186-197 | The draft with the larger score times length is chosen, the suffix draft on a tie if it is not empty |
| `EngineRows.DraftFits` | src/engine.rs:161-200 | A draft has at most k tokens and with its context stays within the model's length; idle or full rows get none |
| `EngineRows.SnapshotsKept` | src/engine.rs:116-159 | Each snapshot is continued by exactly one row or left over: none lost, none used twice |
| `EngineRows.OldRowsKept` | src/engine.rs:116-159 | So of the rows of the last step: each is continued by one row of this step or handed to the corpus |
| `EngineRows.ContextExact` | src/engine.rs:124-155 | A row's context equals the row if and only if the matched snapshot is a prefix of it |
| `EngineRows.ShortPrefixExact` | src/engine.rs:124-135 | Up to 128 tokens the two boundary windows decide the prefix relation exactly |
| `Engine.Proposer.Run` | src/engine.rs:85-205 | A refused call changes nothing; otherwise contexts become the next snapshots, unmatched snapshots go to the corpus once, and every row has the draft that computing both candidates would choose |
| `Engine.Proposer.DraftRow` | src/engine.rs:161-200 | The draft with the scan skipped is the draft with the scan made |
| `Engine.ContextsAreRows` | src/engine.rs:116-155 | Where boundary windows decide prefixes, the tracked contexts are the rows themselves |
| `MixRow.ConditionedIsWhole` | src/mixer.rs:762-773 | The bounded window, taken from the delta and the tracked tail, and the full context with the kept native prefix have the same lookups |
| `MixRow.PrefixIs` | src/mixer.rs:727-751 | The learned budget only decides whether the prefix is the cap or one less |
| `MixRow.PublishedShape` | src/mixer.rs:785-828 | The published length is between prefix and cap; all but its last two slots are native; without a tail it is the native draft |
| `MixRow.CapFits` | src/mixer.rs:700-707 | A proposal may have n tokens exactly if the budget, the native draft and the room left in the model's context have n |
| `MixRow.LegacyFits` | src/mixer.rs:659-880 | Context and published draft together are within the model's length, and a fresh or reset row gets its native draft, cut to the budget and that length only |
| `MixRow.PublishedLength` | src/mixer.rs:785-818 | With a tail the draft is as long as cap, prefix and tail allow, one shorter if the gate is open |
| `MixRow.AlignedExactly` | src/mixer.rs:790-818 | The published tail sits where it was looked up if and only if the gate is open or the tail happens to repeat: with the gate closed it lands one slot late |
| `MixRow.ClosedGateRepeats` | src/mixer.rs:807-815 | A concrete draft that the closed gate makes repeat a token, and the one the open gate gives |
| `MixRow.LegacyShape` | src/mixer.rs:659-880 | For one row: length within [prefix, cap], native_count the longest common prefix with the native draft, a fresh or reset row is native only, estimates stay within [0, k] |
| `MixRow.LegacyUnique` | src/mixer.rs:659-880 | Corpus, request state and row determine draft and new state |
| `MixRow.TailFollows` | src/mixer.rs:762-818 | With the gate open the draft is the kept native prefix and then a verbatim continuation, in some corpus sequence, of a longest match of context and prefix |
| `MixRow.TrainedGood` | src/mixer.rs:567-608 | Feedback keeps the acceptance estimate within [0, k] and the suffix estimate absent or 0 |
| `MixRow.QualityStays` | src/mixer.rs:597-607 | The suffix gate closes at the first rejection inside the native part and never opens again |
| `MixRow.TrainedMoves` | src/mixer.rs:583-607 | A rejection moves the estimate three tenths of the way to what was accepted, and the first one inside the native part closes the gate |
| `MixRow.LegacyEstimates` | src/mixer.rs:567-608 | A continuing request keeps its estimates; a new or reset one starts at full width without evidence about tails |
| `MixRow.FullWidth` | src/mixer.rs:583-590 | Full acceptance restores the published width at once |
| `MixRow.PickLeast` | src/mixer.rs:650-658 | The budget is the least width in 1..k not below the estimate |
| `MixRow.TestedParts` | src/mixer.rs:572-579 | One proposal is tested up to its first rejection, split without overlap into native and suffix part, neither exceeding what was proposed |
| `MixRow.ContextIsRow` | src/mixer.rs:682-717 | Where continuity is decided right the tracked context is the row |
| `MixBatch.EachOnce` | src/mixer.rs:610-628 | A tracked request is either continued by its row or handed to the corpus, and then exactly once |
| `MixBatch.RowAdds` | src/mixer.rs:684-692 | A reset history enters the corpus before the row's own lookup, after the departures and in row order |
| `Mixer.HybridMixer.Validate` | src/mixer.rs:513-551 | Accepts exactly the well-shaped batches with distinct ids whose feedback does not exceed the last proposals |
| `Mixer.HybridMixer.Mix` | src/mixer.rs:557-890 | Refused calls change nothing; otherwise each row has the outcome its context, trained state and the corpus at its turn determine, histories are added once in order, and just the batch is tracked |
| `Mixer.HybridMixer.LookUpRow` | src/mixer.rs:762-774 | The lookup made in the bounded window has the result of the lookup in the whole context |
| `Mixer.HybridMixer.Publish` | src/mixer.rs:785-828 | Draft and native count of the branches, the count being the longest common prefix with the native draft |
| `Mixer.HybridMixer.CountNative` | src/mixer.rs:819-825 | Counting on from the kept prefix gives the longest common prefix |
| `Mixer.HybridMixer.Retire` | src/mixer.rs:609-628 | Exactly the requests absent from the batch leave, in whatever order, each handing over its history once |
| `Mixer.TracksRows` | src/mixer.rs:557-890 | After a call the tracked contexts are the rows, where continuity was decided right |
| `Mixer.DraftsFit` | src/mixer.rs:557-890 | In either mode no draft of a call is wider than the budget or its native draft, and with its row it is within the model's length |
| `DivergeRow.DivergeShape` | src/mixer.rs:411-509 | The width is always cap and the draft is the native one or the candidate laid over it; state stays within its bounds |
| `DivergeRow.DivergeFits` | src/mixer.rs:464-467 | A diverge draft has n tokens exactly if the budget, the native draft and the room left in the model's context have n, so context and draft are within the model's length |
| `DivergeRow.TakesExactly` | src/mixer.rs:483-495 | The candidate is published if and only if it disagrees somewhere and its bucket's right guesses, one added to either side, exceed the threshold's share; at the threshold of a half, if and only if it disagrees and the suffix leads |
| `DivergeRow.BucketIs` | src/mixer.rs:40-47 | Two pieces of evidence share a bucket exactly if they have the same source and the same tier of match length, 16 and 32 being the borders for either source |
| `DivergeRow.ChosenIs` | src/mixer.rs:467-482 | The candidate is the cache's draft, unless that leaves room and the request's own n-gram draft is longer or of higher order |
| `DivergeRow.OverlayAt` | src/mixer.rs:483-495 | Slot by slot the published draft is the candidate as far as it goes and the native draft after it |
| `DivergeRow.DisagreementIs` | src/mixer.rs:483-491 | What is remembered is the first slot in which candidate and native draft differ, with both tokens and the bucket |
| `DivergeRow.ResolvedIs` | src/mixer.rs:430-442 | A continuing row grades the remembered disagreement if and only if verification reached it and the row holds the token there; no other bucket changes |
| `DivergeRow.GradedMoves` | src/mixer.rs:430-442 | A count that is right moves a thousandth of the way to the limit of 1000, one that is wrong loses a thousandth |
| `DivergeRow.LaterTokensIgnored` | src/mixer.rs:483-509 | Two native drafts of one length that agree up to the first disagreement lead to the same source, the same remembered divergence and the same published candidate |
| `DivergeRow.TrustBounds` | src/mixer.rs:394-398 | Trust is within (0, 1), above a half exactly when the suffix leads, so an unobserved bucket never beats the default threshold |
| `DivergeRow.TrustRises` | src/mixer.rs:430-442 | A one-sided observation moves trust strictly towards the source that was right, whatever the discounting before |
| `DivergeRow.SoughtUnique` | src/mixer.rs:467-482 | Corpus and context determine the candidate, its evidence and its source |
| `DivergeRow.OrderOf` | src/mixer.rs:474-476 | The order recovered from an n-gram score is the order that was found |
| `DivergeRow.FillerUncounted` | src/mixer.rs:496-504 | The proposed counters cover the draft unless a candidate shorter than the cap is published: the filler is counted as neither |
| `Mixer.HybridMixer.DivergeStep` | src/mixer.rs:411-509 | One diverge row: grading, reset, candidate and publication, against the row's specification |
| `Mixer.HybridMixer.LegacyStep` | src/mixer.rs:672-880 | One default row, against the row's specification |
| `V2Proposer.V2SuffixProposer.Run` | src/mixer.rs:971-1183 | Departed histories are donated, every row in turn has the outcome its history, gate and the corpus determine, and a failing row is the first out of bounds with all before it done |
| `V2Proposer.V2SuffixProposer.ClearWidths` | src/mixer.rs:1342-1349 | All published widths become 0 and no gate keeps a width to be trained on |
| `V2Proposer.NextOk` | src/mixer.rs:1040-1180 | Widths stay at most k, estimates within [0, k + 1], and gate and width entries belong to tracked requests only |
| `V2Runs.MirrorsLive` | src/mixer.rs:990-1012 | After a successful call exactly the requests of the batch are tracked |
| `V2Runs.MirrorsAreRows` | src/mixer.rs:1024-1057 | Their histories are their rows, where boundary windows decide right, and their widths are what was published |
| `V2Runs.UniformWidth` | src/mixer.rs:1147-1166 | Published widths are at most k, and just k in uniform mode |
| `V2Runs.CallInside` | src/mixer.rs:971-1183 | Every token a call publishes, padding included, is 0 or came from some row or the corpus |
| `V2Runs.RunKeeps` | src/mixer.rs:971-1183 | Over every run of calls, failing ones included, retractions and additions by others: widths at most k, just k when published in uniform mode, estimates within [0, k + 1], gates and widths of tracked requests only, and no token from elsewhere |
| `V2Row.RealFollows` | src/mixer.rs:1058-1070 | The real part continues a corpus sequence verbatim after a longest match; the rest repeats the history's first token |
| `V2Row.MatchPublished` | src/mixer.rs:1053-1122 | What the lookup drafts for the history is published as far as the limit allows, no less, if it is long enough, and otherwise not at all |
| `V2Row.LimitMoves` | src/mixer.rs:1095-1128 | After full acceptance the limit is one more than the published width, up to k; after a rejection it does not exceed the old limit or what was accepted |
| `V2Row.Censored` | src/mixer.rs:1100-1107 | A retracted width trains nothing |
| `V2Row.EwmaMoves` | src/mixer.rs:1095-1118 | A history grown by a + 1 tokens with a short of the width moves the estimate three tenths of the way to a |
| `V2Row.EwmaStays` | src/mixer.rs:1095-1118 | A new or reset history, or one that has not grown, trains nothing |
| `V2Runs.GateStarts` | src/mixer.rs:1123-1141 | A request seen for the first time enters the gate table at full width |
| `V2Runs.DonatedAre` | src/mixer.rs:990-1005 | Of the requests that leave, each with more than eight tokens donates its history, and no other |
| `AsyncSlots.NoRace` | suffix_hybrid/async_spec.py:216-259 | In every run, steps that raise included, the host never touches a pinned slot while a copy through it is queued |
| `AsyncSlots.WaitCovers` | suffix_hybrid/async_spec.py:223-228 | Once the awaited event has happened no copy at all is queued, so the one wait covers every copy before it |
| `AsyncSlots.SnapshotArrived` | suffix_hybrid/async_spec.py:197-208 | The snapshot a step absorbs is the newest copy enqueued for that slot |
| `AsyncResolve.ResolveIsContinuation` | suffix_hybrid/async_spec.py:102-120 | Real are exactly C[o : o + min(K, len(C) - o)] on rows whose new tokens equal C[:o] with o >= 1; all else is the filler 0 |
| `AsyncResolve.StagedDrafts` | suffix_hybrid/async_spec.py:245-260 | So for every row of the staging buffer: rows that were not looked up, left at zero, yield filler only |
| `AsyncResolve.RealWithinWidth` | suffix_hybrid/async_spec.py:257-258 | The host width min(K, len(C) - 1) bounds the real drafts of every row whatever the device finds |
| `AsyncResolve.Absorb` | suffix_hybrid/async_spec.py:197-214 | Selects, in order, exactly the rows that kept their index since the snapshot and had a positive total, with that total |
| `AsyncResolve.LagTotalIs` | suffix_hybrid/async_spec.py:197-214 | A row has a lagged total exactly if its request's last place in the previous step is at the same index with a positive total, and it is that one |
| `AsyncResolve.WidthAttained` | suffix_hybrid/async_spec.py:245-260 | The width is not wasteful: a row that sampled one token, as predicted, has as many real drafts |
| `AsyncResolve.AllowedIs` | suffix_hybrid/async_spec.py:298-309 | A trimmed row keeps n drafts exactly if it has n and its width is at least n |
| `AsyncResolve.Trim` | suffix_hybrid/async_spec.py:291-317 | The given object is never changed; the result has every row cut to its width, empty rows dropped, and the total lowered by exactly the cuts |
| `AsyncResolve.OneTokenStays` | suffix_hybrid/async_spec.py:304-309 | A row keeps room for its sampled token |
| `AsyncResolve.RealDraftsStay` | suffix_hybrid/async_spec.py:257-309 | Of however many scheduled drafts, none that the device can find real is trimmed |
| `WaveSplits.WaveSplitCount` | src/nvfp4_ds_mla.rs:151-164 | Visiting only canonical counts returns the smallest global minimiser of the wave cost over all counts up to min(tiles, 256) |
| `WaveSplits.ReducedNotDearer` | src/nvfp4_ds_mla.rs:151-164 | A count that is skipped is never cheaper than the canonical one of its length |
| `WaveSplits.CostIs` | src/nvfp4_ds_mla.rs:151-164 | What is minimised: with k the least tiles a split and w the least waves, w waves of k tiles and c2 half tiles each |
| `WaveSplits.SplitRowsIs` | src/nvfp4_ds_mla.rs:110-112 | The rows of a split are the least multiple of 64 that covers the capacity |
| `WaveSplits.CanonicalSplits` | src/nvfp4_ds_mla.rs:110-112 | For a canonical count ceil(C / c_per_split) is that count and no split is empty |
| `WaveSplits.CheckLaunch` | src/nvfp4_ds_mla.rs:118-135 | Accepts exactly the shapes whose grid dimensions and index extents are within their bounds |
| `WaveSplits.CheckLaunchIs` | src/nvfp4_ds_mla.rs:118-135 | Of several exceeded bounds the first is reported, in the order grid.x, grid.y, o_part, q |
| `WaveSplits.MakePlan` | src/nvfp4_ds_mla.rs:167-198 | An accepted plan is optimal, has no empty split and is within every launch bound; a shape is refused exactly for a non-positive argument, a capacity past u32, or what the launch check says of the optimal split count |
| `QuantBlock.SfPermBijective` | src/nvfp4_ds_mla.rs:86-89 | The scale permutation and its inverse are inverse on 0..31 |
| `Fp8Codec.EncodeNearest` | src/nvfp4_ds_mla.rs:255-291 | Below 448 no finite code is nearer, and on a tie the chosen one is even |
| `Fp8Codec.EncodeSaturates` | src/nvfp4_ds_mla.rs:266-268 | At 448 and above the largest finite code of the sign is given; the NaN code never |
| `Fp8Codec.EncodeDecode` | src/nvfp4_ds_mla.rs:207-291 | Encoding what a finite byte decodes to gives it back, negative zero excepted |
| `Fp8Codec.EncodeByte` | src/nvfp4_ds_mla.rs:255-291 | The exponent search and rounding with its carry compute that code |
| `QuantBlock.NibbleNearest` | src/nvfp4_ds_mla.rs:231-251 | The e2m1 code has a nearest magnitude, ties to even |
| `QuantBlock.BestIsRounded` | src/nvfp4_ds_mla.rs:231-251 | The scan over the eight magnitudes is rounding at fixed boundaries, clamped at 6 |
| `QuantBlock.BlockError` | src/nvfp4_ds_mla.rs:296-316 | For amax / 6 in the normal range every element comes back within sf / 4 or |x| / 5, so within sf / 2 + |x| / 4 |
| `QuantBlock.Quantize` | src/nvfp4_ds_mla.rs:296-316 | Scale byte and packed nibbles of a block, the even dimension low |
| `QuantBlock.DequantRow` | src/nvfp4_ds_mla.rs:319-338 | Every latent and rope dimension of a stored row |
| `QuantBlock.RowRoundTrip` | src/nvfp4_ds_mla.rs:296-338 | Reading a stored row gives each dimension of each block its own nibble times its own block's scale, through the permuted scales |
| `QuantBlock.RowError` | src/nvfp4_ds_mla.rs:296-338 | Quantizing, storing and dequantizing a row: every dimension of a block in the normal range comes back within the error of BlockError |
| `QuantBound.BlockWithin` | src/nvfp4_ds_mla.rs:296-316 | Over all blocks: every element comes back within sf / 2 + |x| / 4 if and only if amax is not between 26 / 3 and 9 units of 2^-9 and not above 26 / 3 of the largest scale |
| `QuantBound.ElementWithin` | src/nvfp4_ds_mla.rs:296-338 | Every element comes back, and within that bound if and only if it is at most 26 / 3 of the stored scale |
| `QuantBound.LeastScale` | src/nvfp4_ds_mla.rs:302-307 | A block of amax up to six units of 2^-9, zeros included, is stored with scale byte 1 |
| `QuantBound.DecodeIsE4m3` | src/nvfp4_ds_mla.rs:207-222 | A byte decodes as sign, four exponent bits of bias 7 and three mantissa bits, with denormals and one NaN code a sign |
| `QuantBound.NibbleIsE2m1` | src/nvfp4_ds_mla.rs:224-229 | A nibble decodes as sign, two exponent bits and one mantissa bit |
| `QuantBound.StoredAt` | src/nvfp4_ds_mla.rs:9-16 | The even dimension of a pair is in the low nibble of its byte, and the scale of block 4a + c is at 320 + 8c + a |
| `QuantBound.RopeAt` | src/nvfp4_ds_mla.rs:9-16 | The rope bytes are stored as they are from byte 256 on |
| `SplitTiles.SplitLength` | src/nvfp4_attn.rs:208-220 | Attains the first minimum of the four candidates, with at least 2 tiles a split and at most ns splits |
| `SplitTiles.Partition` | src/nvfp4_attn.rs:208-220 | Every tile is in exactly one split, and the splits below the ceiling are those that are not empty |
| `SplitTiles.Covers` | src/nvfp4_attn.rs:208-220 | Every candidate length covers all tiles with at most ns splits |
| `SplitTiles.ChosenUnique` | src/nvfp4_attn.rs:208-220 | There is one first minimum, so host and device agree |
| `SplitTiles.SplitLength32` | src/nvfp4_attn.rs:391-416 | The u32 device copy chooses the same length without overflow, under an explicit bound on rows, tiles and slots |
| `SplitTiles.CostBound` | src/nvfp4_attn.rs:391-416 | The bound on a candidate's cost that the words need |
| `SplitTiles.SplitsAre` | src/nvfp4_attn.rs:208-220 | The first three candidates take the most splits that fit k full waves, between 1 and the cap; the fourth takes the cap |
| `SplitTiles.LengthIs` | src/nvfp4_attn.rs:208-220 | The length of a candidate is the least, from two tiles on, that covers all tiles |
| `SplitTiles.CostIs` | src/nvfp4_attn.rs:208-220 | What is minimised: w least waves of splits of per tiles, each with 64 tokens in tiles on top |
| `RowPlan.DealRows` | src/nvfp4_attn.rs:145-151 | The loop ends with the least CTAs per request whose rows fit the budget |
| `RowPlan.ChooseSplits` | src/nvfp4_attn.rs:194-200 | The smallest count within 3 % of the least cost |
| `RowPlan.PlanRows` | src/nvfp4_attn.rs:107-188 | An accepted plan deals to the fewest CTAs, meets row, page and shared-memory limits, those of the merge kernel included, and has the chosen tile; an argument is refused with the error of the first guard it fails, and otherwise TooManySlots and NoTile are returned exactly when the rows of such a CTA need too many slots or have no tile |
| `RowPlan.MergeFits` | src/nvfp4_attn.rs:84-88 | The merge kernel fits its shared memory for every number of splits and rows that can be planned |
| `RowPlan.PickedLargest` | src/nvfp4_attn.rs:155-162 | A tile that divides the page and fits is picked if there is one, and no larger one fits |
| `RowPlan.TileFitsIs` | src/nvfp4_attn.rs:155-162 | A tile fits exactly if it divides the page, the m by t scores are at most 1024 a slot of the register variant, and the CTAs of an SM share its memory |
| `RowPlan.SlotsAre` | src/nvfp4_attn.rs:146-152 | The register variant is the least number of slots of 8192 row dimensions that holds the CTA |
| `RowPlan.WaveCostIs` | src/nvfp4_attn.rs:194-200 | What is minimised: the least waves that hold the CTAs of ns splits, over ns |
| `RowPlan.SmemIs` | src/nvfp4_attn.rs:71-82 | The shared memory is that of the query rows and their weights, the two token stages, and the row statistics |
| `RowPlan.MergeSmemIs` | src/nvfp4_attn.rs:84-88 | The merge kernel keeps a weight for every split of every row, a scale a row and 64 words a row |
| `Autotune.LockStep` | suffix_hybrid/nccl_split.py:188-241 | Whatever each rank measures, fails at or reads from its clock, at every moment all ranks are about to issue the same collective call |
| `AutotuneFailures.FailedIsInfinite` | suffix_hybrid/nccl_split.py:206-236 | At the end a candidate other than the default that failed on any rank is infinite in every column of every rank's table, and the tables are equal |
| `AutotuneDefault.DefaultLosesColumn` | suffix_hybrid/nccl_split.py:222-236 | The default, which stays in the race, ends without a time, on every rank, at a size where it failed on any |
| `AutotuneDefault.DefaultKeepsColumns` | suffix_hybrid/nccl_split.py:222-236 | When its failure becomes known every rank keeps the table as it is, so its other columns stay, and never measures that size again |
| `AutotuneFailures.AlwaysEnds` | suffix_hybrid/nccl_split.py:188-241 | Every rank ends within a bound on its calls that the candidates and sizes give |
| `AutotuneTimes.TimesExact` | suffix_hybrid/nccl_split.py:206-236 | At the end the table of every rank holds t for a candidate at a size if and only if all ranks measured it there, the slowest taking t, and it, unless it is the default, never failed on any rank |
| `AutotuneTimes.FilledIsTimed` | suffix_hybrid/nccl_split.py:222-236 | At every moment each time in a table is the slowest rank's of a call that measured that candidate at that size |
| `AutotuneTimes.RaceGoesOn` | suffix_hybrid/nccl_split.py:237-240 | After a size exactly those stay whose time is at most prune times that of every other candidate that has one, and the default |
| `AutotuneTimes.BudgetForMaking` | suffix_hybrid/nccl_split.py:210-212 | A communicator is made if and only if no rank's clock is past the budget |
| `AutotuneTimes.BudgetForMeasuring` | suffix_hybrid/nccl_split.py:222-236 | The rest of the candidates is measured if no rank's clock is past the budget, and otherwise every rank is through |
| `AutotuneTimes.BudgetForSizes` | suffix_hybrid/nccl_split.py:235-240 | So is the next size, unless no candidate is left |
| `Bands.BuildBands` | suffix_hybrid/nccl_split.py:248-265 | The bands cover [0, INF) contiguously, neighbours differ, and every message, at a measured size or between two, is routed to the winner of its part, parts meeting at the crossovers |
| `Bands.WinnerIs` | suffix_hybrid/nccl_split.py:248-257 | A winner takes less than the default less the margin and no longer than any other candidate; if the default wins, no candidate is below that; without a time it always wins |
| `Bands.BeforeIs` | suffix_hybrid/nccl_split.py:248-257 | Equal times are decided by the lexicographic order of the names |
| `Bands.CrossIs` | suffix_hybrid/nccl_split.py:244-245 | A crossover is the midpoint, moved as little as it takes to be above the lower size and not above the higher |
| `Bands.ContiguousRoutes` | suffix_hybrid/nccl_split.py:167-179 | Contiguous bands route every size of their range and no other |
| `BandText.SizeRoundTrip` | suffix_hybrid/nccl_split.py:94-108 | Parsing a printed size gives it back, below 2^53 or at INF |
| `BandText.SizeIs` | suffix_hybrid/nccl_split.py:94-100 | A number with K, M or G, in either case and with or without B or iB, is that many powers of 1024 |
| `BandText.DigitsStandFor` | suffix_hybrid/nccl_split.py:102-108 | A size is printed in decimal without a leading zero |
| `BandText.LargestUnit` | suffix_hybrid/nccl_split.py:102-108 | With the largest unit that divides it |
| `BandText.ParsedBands` | suffix_hybrid/nccl_split.py:123-139 | Accepted bands are non-empty, usable and pairwise disjoint |
| `BandText.BandsRoundTrip` | suffix_hybrid/nccl_split.py:123-143 | parse_bands(bands_str(b)) == b for sorted disjoint bands of such sizes with trimmed, comma-free specs |
| `BandText.Parse` | suffix_hybrid/nccl_split.py:123-139 | The loop, the sort and the neighbour check compute the parsed bands or the error |
| `QarReduce.JointIsSimulate` | suffix_hybrid/nccl_qar.py:66-84 | Over any arithmetic: when the all-to-all transposes what the ranks send and the all-gather gives each the rows they all contributed, every rank ends with the single-process reference's result |
| `QarReduce.UnpackPack` | suffix_hybrid/nccl_qar.py:39-54 | A row unpacks to every element requantized in its own block, at codes and scales split at c |
| `QarReduce.PaddingFills` | suffix_hybrid/nccl_qar.py:57-63 | The padding is the least that fills world rows of whole blocks |
| `QarReduce.SimulateAt` | suffix_hybrid/nccl_qar.py:75-84 | Each result element depends only on its own block of the inputs: requantized per rank, added in rank order, requantized; rows and ranks do not show |
| `QarReduce.ElementSteps` | suffix_hybrid/nccl_qar.py:75-84 | Spelled out: the sums of a block start with rank 0's requantized element and add one rank's a step |
| `QarReduce.InputAt` | suffix_hybrid/nccl_qar.py:57-63 | An input block holds the elements at its place and zeros beyond the end |
| `QarError.ErrorBound` | suffix_hybrid/nccl_qar.py:87-100 | Over the reals each element is within the two-stage bound of the exact sum, each block magnitude floored at 1e-30, zero blocks losing nothing |
| `QarError.ExactIs` | suffix_hybrid/nccl_qar.py:87-92 | The sum that the error is measured against is that of the ranks' own elements |
| `QarError.RequantError` | suffix_hybrid/nccl_qar.py:39-54 | One requantization errs by at most amax / 254; the clamp never bites |
| `QarError.FloorNeeded` | suffix_hybrid/nccl_qar.py:87-100 | Without the floor the bound is false: two ranks, of which one holds a single element of 1e-31, exceed it |
| `QarError.DocumentedBound` | suffix_hybrid/nccl_qar.py:87-95 | The documented bound, without a floor, holds of the collective where the floor changes neither a rank's block magnitude nor that of the second stage |
| `QarError.PlainExactly` | suffix_hybrid/nccl_qar.py:39-54 | For one requantization the condition is exact: every element of every block of magnitude m errs by at most m / 254 if and only if m is 0 or at least the floor |
| `QarError.CancellationCounts` | suffix_hybrid/nccl_qar.py:87-100 | The second stage needs its condition: two ranks that nearly cancel, their own magnitudes at least the floor, exceed the documented bound |

## Left out

- Weak memory: the model is sequentially consistent, which the release and acquire operations are there to provide; timeouts, traps, prefetch and NUMA placement are not modelled.
- Vectors of a program step: a block handles one item of a stage at a time, in any order; the strided loops themselves are `HostLoops`, which shows that they visit those items.
- Blocks of a grid are co-resident and every rank issues the same collectives, as the host code arranges.
- Machine arithmetic of the planners: host-side `usize` products are unbounded here; only the u32 device copy of `split_tiles` is modelled in words.
- Floating point: acceptance estimates, scores, trust, scales and codec values are reals; NaN and negative zero as codec inputs are left out, fp32 rounding of the compressed all-reduce is either uninterpreted (`QarReduce`) or absent (`QarError`), and the input cast at its end is uninterpreted.
- QarError.ErrorBound: bounds the error before the output cast, without the relative and absolute slack that `error_bound` adds for it; fp8 mode is not modelled.
- QarReduce.JointIsSimulate: the transports are functions with the collectives' delivery property; grouped sends and receives are not modelled.
- Packed scales are one cell of a row, not four bytes.
- Whether boundary windows identify a request is heuristic in the code; lemmas say what follows where they do, and `EngineRows.ShortPrefixExact` where they always do.
- Mixer.HybridMixer.Mix: the NumPy entry points are one call with rows already cut to their counts; telemetry counters, timers and environment parsing are not modelled.
- V2Proposer.V2SuffixProposer.Run: a row index outside the buffer, a caught panic in the code, is the same failure as a row out of bounds; hit, reset and padding counters are not modelled.
- The cache's lock, and `set_test_n`.
- AsyncSlots.NoRace: at the granularity of the statements of a step; recording and awaiting an event do not raise.
- Choice of native or suffix rows, broadcast and statistics in the hybrid async path.
- Bands.BuildBands: the geometric mean in a crossover is an arbitrary function, which is all the code needs of it; `make_pick`'s dtype fallback is not modelled.
- Text in `BandText` is ASCII: Python's `strip` and `upper` also know the separators from `\x1c` to `\x1f` and non-ASCII characters.
- BandText.BandsRoundTrip: `float()` is an environment function that reads decimals below 2^53.
- Autotune's measurements, clock and failures are arbitrary per rank; destroying communicators is not modelled.
- CUDA, PTX and Triton lowering, import hooks, patches, benchmarks and the decider and media adapters.
