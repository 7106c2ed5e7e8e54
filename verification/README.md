# A verified model of the grading engine's core

This project models the parts of autoscan-engine whose promises are global: they hold over all rounds of a search, over every order of
iteration, or over every interleaving of concurrent actors, and none of them can be read off one function.

- **Similarity** (`Tiling`, `GreedyTiling`, `TilingFacts`, `EqualStreams`, `GreedyLaw`, `Fingerprint`, `Plagiarism`, `Pairing`, `Similarity`, `Dictionary`).
  Greedy string tiling over two token arrays is specified by rounds of brute-force search (`Tiling.Tiling`) and the indexed in-place algorithm
  is proved to compute exactly that. Tokens are integers, 0 is the separator between functions.
- **Peer model** (`TokenCounts`, `PeerModel`, `Surprisals`, `Signature`, `PeerGroups`, `TokenMetrics`, `MetricsLaw`, `Windows`). The held-out bigram model is
  stated on the multiset of grams that remain (`PeerModel.Model`); the code's subtraction of one group's counts from a shared corpus is proved
  to be that model. Arithmetic is exact, over `real`; `log2` is a parameter of which only its sign is used; SHA-256 is a parameter assumed free
  of collisions, and the byte stream fed to it is modelled.
- **Saved-result refresh** (`SafeNames`, `SavedResult`, `RefreshProtocol`, `RefreshVerdicts`, `RefreshPass`). One refresh replaces two fields of a saved run. The protocol
  around it is a state machine of conditional requests (If-Match and If-None-Match, sections 13.1.1 and 13.1.2 of RFC 9110) in which refresh workers
  interleave with arbitrary writers and deleters of runs. A write whose answer was lost may be carried out at any later time and repeatedly.
  Tags and hashes are assumed to tell apart the finitely many bodies a run meets; for every finite set of bodies such tags and hashes exist
  (`RefreshProtocol.TagsAndHashesExist`).
- **Terminal sessions** (`Sessions`, `SessionRuns`, `JoinOutcomes`, `TerminalSession`). Every section under a lock is one atomic step; callers have program
  counters; a timer that has fired can no longer be stopped.
- **Score** (`Rounding`, `Score`, `ScoreReport`, `ScoreLaw`, `ScoreSteps`, `ScoreBuilder`). Points are whole hundredths, rounding is half away from zero, and the square root is a
  parameter of which only its range on [0, 1] is used, and for one law that it rises.
- **Grade queue** (`GradeQueue`, `GradeRuns`, `ServerState`, `WorkerPool`). Grade jobs, sandbox analyses, refresh passes and plain requests share one slot,
  one activity count and one progress table; reporters run in parallel and may be delivered in any order.
- **Attribute masking** (`Attributes`, `LexicalPieces`, `LineOffsets`). The small lexer that blanks unused attributes before parsing, and the line and column arithmetic.

`Options` and `Runs` hold what several parts share: optional values, and runs of a state machine with their invariants.

Code that updates arrays, maps or fields step by step is a method or class here too, and its contract ties the result to a
specification function; the laws are lemmas about those functions and about whole runs of the state machines. Where a specification function
follows the code closely, a further law says what its results are without it: which tilings are greedy, what a row of metrics holds, what an answer
of a refresh or a join means, how the score answers to its evidence, and what the lexical pieces of a text are.

## What is not true

Some properties one might expect do not hold. Each has a lemma with the exact condition or a concrete input.

- Equal token streams score 100% exactly when every segment between separators has at least the minimum match length
  (`Plagiarism.EqualStreamsScore`); fingerprints meet that condition when the function minimum is at least the match minimum.
- The held-out probabilities add up to one exactly when no surviving token is itself spelled `<unknown>` (`PeerModel.ProbabilitiesSumToOne`).
- A terminal session can be ended by its lingering timer while a caller is attached: a callback that has fired cannot be stopped
  (`SessionRuns.FiredTimerCanEndAnOccupiedSession`). Attaching cancels the timer exactly when it has not fired
  (`SessionRuns.AttachCancelsUnlessFired`).
- The one retry of a caller that found its session closed meets the same session again exactly while the teardown has marked it closed but not yet
  unregistered it (`SessionRuns.RetryMeetsTheSameSession`).
- A score contribution can end below zero (`ScoreReport.ContributionCanBeNegative`). That happens exactly when one of the two reconcilings takes
  away more than the largest entry holds: the one of the style points, or the last one to a tenth (`ScoreReport.ContributionsGoNegative`), and the
  last one only where every entry is below 0.04 (`ScoreReport.LastOvershootIsSmall`).
- A dictionary entry need not have a token: with a match minimum of zero or less an empty one is kept, and it is then listed for every submission
  with a share that is not a number, although it covers nothing (`Dictionary.EmptyEntryIsAlwaysListed`).
- The idle check fires while work is active exactly when the timeout is not positive (`GradeRuns.IdleExitNeedsPositiveTimeout`); the server starts it
  only with a positive one.

## Model

| member | source | states |
|---|---|---|
| Tiling.RunLengthMeasures | internal/engine/fingerprint.go:224-227 | The measured length at (i, j) is at least n exactly when n equal, non-zero, unmarked tokens follow there on both sides |
| Tiling.CandidatesAre | internal/engine/fingerprint.go:213-239 | A round's candidates are exactly the common unmarked runs of the greatest length, all of at least the minimum; there are none exactly when no run reaches the minimum |
| Tiling.HandledIsBlocked | internal/engine/fingerprint.go:240-249 | After the round's placing loop every candidate, placed or skipped, touches a mark |
| Tiling.RoundDescends | internal/engine/fingerprint.go:213-250 | The longest unmarked common run gets strictly shorter from round to round, so the outer loop ends |
| GreedyTiling.IndexPositions | internal/engine/fingerprint.go:203-208 | The index holds, for each non-zero token, all its positions in ascending order |
| GreedyTiling.MeasureRun | internal/engine/fingerprint.go:224-227 | The inner loop measures the unmarked common run |
| GreedyTiling.FindLongestRuns | internal/engine/fingerprint.go:214-236 | Despite the position index, the shrinking scan bound and the list reset, one scan finds exactly the brute-force candidates |
| GreedyTiling.IsMarked | internal/engine/fingerprint.go:256-263 | True exactly when some position of the range is marked |
| GreedyTiling.PlaceCandidates | internal/engine/fingerprint.go:240-249 | The in-place marking of both arrays and the appended tiles are the specified placing of the candidates in order |
| GreedyTiling.GreedyStringTiling | internal/engine/fingerprint.go:199-254 | The whole algorithm returns the specified tiling for every pair of arrays and every minimum |
| TilingFacts.TilesAreGenuineAndDisjoint | internal/engine/fingerprint.go:240-254 | Tiles are equal non-zero runs of at least the minimum, disjoint on both sides, in ascending order |
| TilingFacts.NoRunIsLeft | internal/engine/fingerprint.go:197-254 | Maximality: every common run of at least the minimum is touched by a tile on one side |
| TilingFacts.MatchedIsBounded | internal/engine/fingerprint.go:265-271 | Matched tokens are at most either side's token count, and equal to it exactly when all its tokens are covered |
| GreedyLaw.GreedyTilingIsUnique | internal/engine/fingerprint.go:197-254 | A list of tiles is the result if and only if it is ascending, disjoint and genuine, and every other long enough common run shares a token with a longer tile, or with one of its length that comes earlier in the scan |
| GreedyLaw.FirstLongestIsATile | internal/engine/fingerprint.go:213-249 | A longest common run that the scan meets before all others of its length is always a tile |
| EqualStreams.RoundsMirror | internal/engine/fingerprint.go:210-250 | On equal arrays the marks of both sides stay equal unions of whole segments through all rounds |
| EqualStreams.EqualStreamsTileWholeSegments | internal/engine/fingerprint.go:210-254 | On equal arrays every tile maps one whole segment onto the same segment |
| EqualStreams.SegmentIsCoveredIffLong | internal/engine/fingerprint.go:210-254 | On equal arrays a segment is covered exactly when it has at least the minimum length |
| EqualStreams.EqualStreamsMatchIff | internal/engine/fingerprint.go:210-254 | Equal arrays are tiled completely exactly when every segment reaches the minimum |
| Fingerprint.HashToken | internal/engine/fingerprint.go:186-191 | A token's hash is never the separator |
| Fingerprint.AppendFunction | internal/engine/fingerprint.go:52-61 | Appending a function keeps tokens and spans aligned, with a separator between functions only |
| Fingerprint.Assemble | internal/engine/fingerprint.go:45-64 | The fingerprint is valid: spans aligned with tokens and the token count equal to the non-zero tokens; short functions are dropped |
| Fingerprint.SegmentsAreFunctions | internal/engine/fingerprint.go:45-62 | Every segment of a fingerprint is one kept function, so all segments reach a length that all kept functions reach |
| Fingerprint.FingerprintSegmentsReach | internal/engine/fingerprint.go:48-61 | A function minimum of at least the match minimum makes every segment long enough to be tiled |
| Fingerprint.TokensTellHashesApart | internal/engine/fingerprint.go:186-191 | Two texts share a token exactly when their hashes agree but for the lowest bit |
| Fingerprint.TokensKeepTheirSpans | internal/engine/fingerprint.go:52-61 | Every kept token stands at its place in the stream with its own byte span |
| Plagiarism.TilingFits | internal/engine/fingerprint.go:273-275 | Every tile of two valid fingerprints can be turned into spans without leaving the span arrays |
| Plagiarism.CompareFiles | internal/engine/plagiarism.go:11-26 | The comparison is the specified one on the fingerprints' values and changes neither of them |
| Plagiarism.TileMatches | internal/engine/plagiarism.go:28-42 | One match per tile, each with the byte spans of its first and last token on both sides |
| Plagiarism.SimilarityIsAPercentage | internal/engine/plagiarism.go:13-22 | The score lies in 0..100 and is 100 exactly when every token of both sides is matched and there is one |
| Plagiarism.ComparedIs | internal/engine/plagiarism.go:11-42 | The score is twice the matched tokens out of all tokens, the flag is raised from the threshold on, and each match spans from the first byte of its first token to the last byte of its last one on both sides |
| Plagiarism.EqualStreamsScore | internal/engine/plagiarism.go:11-26 | Fingerprints with equal token streams score 100 exactly when they have tokens and all segments reach the minimum |
| Plagiarism.RenamedCopyScores100 | internal/engine/plagiarism.go:11-26 | Two submissions with the same normalised functions score 100 under a function minimum of at least the match minimum |
| Plagiarism.WithoutSolutionCode | internal/engine/plagiarism.go:138-148 | The result is a fresh copy with the solution's tiles blanked and the count reduced; the shared fingerprint is untouched |
| Plagiarism.BlankedIsCounted | internal/engine/plagiarism.go:139-146 | Subtracting tile lengths keeps the token count equal to the non-zero tokens after blanking |
| Plagiarism.BlankedRunIsOriginal | internal/engine/plagiarism.go:136-148 | A common run of two blanked streams is a common run of the originals that avoids all set-aside tokens |
| Plagiarism.SetAsideNeverMatches | internal/engine/plagiarism.go:79-88 | No pairwise tile after setting solution code aside touches a set-aside token of either submission |
| Plagiarism.CopyOfSolutionMatchesNobody | internal/engine/plagiarism.go:136-148 | A copy of the solution has no tokens left and is 0% similar to everybody |
| Pairing.EveryPairOnce | internal/engine/plagiarism.go:102-108 | The job list holds n(n-1)/2 jobs and every pair i < j stands at its own place |
| Pairing.PlacesDiffer | internal/engine/plagiarism.go:102-108 | Two different pairs never share a place |
| Similarity.Collect | internal/engine/plagiarism.go:69-77 | Fingerprinted submissions are kept in order and all others counted as failures |
| Similarity.CompareThenSetAside | internal/engine/plagiarism.go:81-88 | A submission is compared with the solution before, and set aside after |
| Similarity.CompareWithSolution | internal/engine/plagiarism.go:79-92 | One solution pair per submission, most similar first, and every submission's own code left |
| Similarity.ComparePairs | internal/engine/plagiarism.go:102-132 | The report holds exactly one comparison for every two submissions, most similar first |
| Similarity.ComputeSimilarity | internal/engine/plagiarism.go:61-134 | The report holds the specified pairs on the set-aside fingerprints; an error exactly when no submission could be fingerprinted |
| Dictionary.CompareToEntry | internal/engine/ai_detection.go:221-241 | An entry gives a row and coverage exactly when its share is not below one half, a share of no tokens included |
| Dictionary.CompareToDictionary | internal/engine/ai_detection.go:217-257 | The count is the size of the union of all present patterns' tiles; one match per present entry |
| Dictionary.ListedWhenHalfIsThere | internal/engine/ai_detection.go:221-241 | An entry is listed exactly when at least half of its tokens are there, with the share of them and its tiles' spans |
| Dictionary.MatchedAre | internal/engine/ai_detection.go:217-241 | A row is listed exactly when it is that of a present entry |
| Dictionary.OneRowEach | internal/engine/ai_detection.go:217-241 | There is one row for every present entry |
| Dictionary.EmptyEntryIsAlwaysListed | internal/engine/ai_detection.go:195-225 | An entry without tokens is listed for every submission without spans, with a share that is not a number, and covers nothing |
| Dictionary.CoverageIsAShare | internal/engine/ai_detection.go:57-64 | Covered tokens never exceed the token count, so the coverage share lies in 0..1 |
| Dictionary.CoverageIgnoresOrder | internal/engine/ai_detection.go:217-257 | Coverage depends only on which entries there are, not on their order or repetition |
| TokenCounts.AddingIsCountingTogether | internal/engine/ai_metrics.go:190-201 | Adding two counts is counting the concatenation, in all four fields |
| TokenCounts.AddMap | internal/engine/ai_metrics.go:192-194 | Adding map entries in any key order gives the pointwise sum |
| TokenCounts.CountTokens | internal/engine/ai_metrics.go:87-104 | The maps count exactly the grams of the files, with a start context per file |
| PeerModel.ContextIsSumOfPairs | internal/engine/ai_metrics.go:96-99 | A context's count is the sum of its pair counts |
| PeerModel.TotalIsSumOfTokens | internal/engine/ai_metrics.go:96-99 | The total is the sum of the token counts |
| PeerModel.SubtractingIsRecounting | internal/engine/ai_metrics.go:153-188 | Corpus minus the held-out group equals recounting the others, in every field, and no difference is negative |
| PeerModel.HoldOutIsARebuild | internal/engine/ai_metrics.go:154-179 | The probability computed by subtraction is the model of the remaining grams alone; a token is unknown exactly when no peer uses it |
| PeerModel.ModelIgnoresOrder | internal/engine/ai_metrics.go:153-188 | The model depends only on the multiset of grams |
| PeerModel.UnseenContext | internal/engine/ai_metrics.go:175-179 | In a context no peer has, a probability is the token's share with half a count added to every known token and to the unknown one |
| PeerModel.ContextMixesIn | internal/engine/ai_metrics.go:175-179 | A context mixes its own counts with five parts of that probability |
| PeerModel.ProbabilitiesSumToOne | internal/engine/ai_metrics.go:175-179 | For every context the probabilities of surviving tokens and the unknown bucket sum to exactly one, if and only if no survivor is spelled like the bucket |
| PeerModel.ProbabilityIsProper | internal/engine/ai_metrics.go:175-179 | Every probability is positive and at most one, and below one exactly when peers have tokens |
| Surprisals.CountVocabulary | internal/engine/ai_metrics.go:154-159 | The vocabulary counts the surviving tokens plus one in any map order |
| Surprisals.TokenStep | internal/engine/ai_metrics.go:166-183 | One token's surprisal is that of the model of the remaining grams, in the context of the replaced previous token |
| Surprisals.StreamingStep | internal/engine/ai_metrics.go:140-145 | The streaming update is exact: new mean and new squared deviation equal two passes over the longer list |
| Surprisals.Moments.Add | internal/engine/ai_metrics.go:140-145 | The three fields summarise the values so far plus the new one |
| Surprisals.SeriesIsNonNegative | internal/engine/ai_metrics.go:178-181 | No surprisal is negative |
| Surprisals.PeerSurprisals | internal/engine/ai_metrics.go:153-188 | The series, the moments and the unknown count are those of the model of the remaining grams |
| Signature.DecodeEncode | internal/engine/ai_metrics.go:120-133 | The hashed byte stream decodes back to the list of token lists, for arbitrary token bytes |
| Signature.EncodeIsInjective | internal/engine/ai_metrics.go:120-133 | Different submissions are hashed from different byte streams |
| Signature.TokenSignature | internal/engine/ai_metrics.go:120-133 | The incremental writes feed the hash exactly that stream |
| PeerGroups.DigestIdentifies | internal/engine/ai_metrics.go:215-219 | Signatures agree exactly for equal streams |
| PeerGroups.GroupsIgnoreOrder | internal/engine/ai_metrics.go:206-221 | The groups and their representatives do not depend on the order of submissions |
| PeerGroups.CorpusIgnoresOrder | internal/engine/ai_metrics.go:222-226 | The corpora do not depend on the order in which the map is iterated |
| PeerGroups.GroupIsHeldOut | internal/engine/ai_metrics.go:243-245 | Subtracting the representative of the target's group leaves exactly the corpus of all other groups |
| PeerGroups.DuplicateAddsNoStream | internal/engine/ai_metrics.go:203-221 | A structural duplicate adds no normalised stream |
| PeerGroups.NormalizedCorpusSeesStreamsOnly | internal/engine/ai_metrics.go:222-226 | The normalised corpus a target is measured against depends only on the set of distinct normalised streams |
| TokenMetrics.GroupSubmissions | internal/engine/ai_metrics.go:205-221 | The map keeps, for each signature, the submission with the least raw signature |
| TokenMetrics.BuildCorpora | internal/engine/ai_metrics.go:222-226 | Both corpora count every group exactly once |
| TokenMetrics.SetTokenMetrics | internal/engine/ai_metrics.go:204-253 | Every submission's row is its metrics against the set of groups, with the cohort sizes and thresholds of the code |
| MetricsLaw.MetricsFit | internal/engine/ai_metrics.go:204-253 | From the submissions alone: no row below 50 tokens, peer numbers from 128 tokens and 5 normalised streams on, cohort and excluded copies, mean and squared deviation of the raw stream's surprisals under the other groups' representatives and likewise of the normalised stream, and the number of raw tokens no peer uses |
| MetricsLaw.OtherPeersExist | internal/engine/ai_metrics.go:205-226 | Every cohort has such representatives for every submission |
| TokenMetrics.MetricsIgnoreSubmissionOrder | internal/engine/ai_metrics.go:203-253 | A submission's metrics are the same under every permutation of the submissions |
| TokenMetrics.DuplicateKeepsNormalizedMetrics | internal/engine/ai_metrics.go:203-247 | Adding a structural duplicate changes neither the normalised series nor the normalised cross entropy of anybody |
| Windows.BlocksPartition | internal/engine/ai_metrics.go:259-284 | Files of at least 64 tokens are cut into consecutive blocks of 64 to 191 tokens; shorter ones give none |
| Windows.TokenHasOneBlock | internal/engine/ai_metrics.go:264-284 | Every token lies in exactly one block |
| Windows.MeasureWindow | internal/engine/ai_metrics.go:265-282 | The window's end is the block's end and its mean that of the block's values |
| Windows.FileLoop | internal/engine/ai_metrics.go:263-284 | A file contributes its blocks' windows, its changes between neighbours, and one comparison less than windows |
| Windows.WindowsConserve | internal/engine/ai_metrics.go:263-284 | A file's windows hold all its tokens and all its surprisal, and each has the lines, the mean and the squared deviation of its block |
| Windows.SortedIsOrdered | internal/engine/ai_metrics.go:297-308 | Sorting by any of the two orders keeps the windows and puts them in order |
| Windows.ShownIsTrim | internal/engine/ai_metrics.go:297-309 | The list shown is ordered by file and line, and it is all windows, or 32 of which none is closer to the mean than one left out |
| Windows.CollectWindows | internal/engine/ai_metrics.go:256-285 | All files' windows with exact moments and change sums |
| Windows.SetLocalTokenWindows | internal/engine/ai_metrics.go:255-310 | The count and summaries cover all windows; the list is exactly the trimmed one in its final order |
| SafeNames.JoinSplit | internal/engine/ai_reanalysis.go:141-144 | Splitting a name at slashes is undone by joining |
| SafeNames.SafeIsPlain | internal/engine/ai_reanalysis.go:141-144 | The rule admits exactly relative names made of plain parts, so a safe name never leaves its directory at any point of the walk |
| SavedResult.CheckNames | internal/engine/ai_reanalysis.go:62-77 | File names are accepted exactly when all are safe and no two collide: none repeated, none a directory of another |
| SavedResult.CheckSubmissions | internal/engine/ai_reanalysis.go:48-85 | Submissions are accepted exactly when ids are present and distinct, names usable and writable side by side, and every listed C file saved |
| SavedResult.FindOld | internal/engine/ai_reanalysis.go:94-105 | The row found for an id is the last one saved under it |
| SavedResult.OldRowIsLast | internal/engine/ai_reanalysis.go:100-102 | The row kept for an id is the last of all rows with that id, and there is none exactly when no row has it |
| SavedResult.MergeRow | internal/engine/ai_reanalysis.go:109-117 | The merged row as specified, including the flag raised by kept artifacts |
| SavedResult.MergeRows | internal/engine/ai_reanalysis.go:103-118 | Rows are overwritten in place; it fails exactly when saved coverage is missing under a usable dictionary |
| SavedResult.MergeKeepsEvidence | internal/engine/ai_reanalysis.go:109-116 | Saved coverage, matches and tool-file artifacts survive; the row is flagged exactly when the new row, the saved coverage or a kept artifact is |
| SavedResult.BuildReport | internal/engine/ai_reanalysis.go:94-120 | The report carries the saved dictionary counters and the current method |
| SavedResult.NewReportCarries | internal/engine/ai_reanalysis.go:94-120 | Each counter is carried to its own field; each row gets the evidence saved last under its id back and is scored after that |
| SavedResult.Reanalyze | internal/engine/ai_reanalysis.go:17-139 | Unchanged exactly when already current; updated exactly when the caller-checkable condition holds, null fields included; an update changes only the two analysis fields and stamps the method |
| SavedResult.RefreshIsACheckpoint | internal/engine/ai_reanalysis.go:17-39 | What a refresh writes is current, so a second refresh reports no change whatever the analysis would say |
| RefreshProtocol.StepKeepsBackups | cmd/autoscan-server/ai_reanalysis.go:195-203 | No step of anybody changes or removes a backup, and backups match their hash |
| RefreshProtocol.TagsAndHashesExist | cmd/autoscan-server/ai_reanalysis.go:194-197 | For every finite set of bodies there are non-empty tags and hashes that tell them apart, as the results about runs assume |
| RefreshProtocol.StepKeepsInv | cmd/autoscan-server/ai_reanalysis.go:161-210 | Every step keeps: tags belong to the body read, and a worker about to put has that body backed up |
| RefreshProtocol.ReplacementIsSafe | cmd/autoscan-server/ai_reanalysis.go:195-209 | Whoever replaces a run, even late, replaces exactly the body analysed, never recreates a deleted run, touches nothing else, and finds that body backed up |
| RefreshProtocol.PutReplacesWhatWasRead | cmd/autoscan-server/ai_reanalysis.go:204-209 | The put succeeds exactly when the run still holds the body read, and otherwise changes nothing |
| RefreshProtocol.InvAlways | cmd/autoscan-server/ai_reanalysis.go:161-210 | The invariant holds at every point of every run whose bodies tags and hashes tell apart |
| RefreshProtocol.BackupsForever | cmd/autoscan-server/ai_reanalysis.go:195-203 | A backup once written stays the same for the rest of every run |
| RefreshProtocol.NothingReplacedIsLost | cmd/autoscan-server/ai_reanalysis.go:161-210 | Over every interleaving, each replaced body can be read back from its backup at every later point |
| RefreshProtocol.AtMostOneRefresh | cmd/autoscan-server/ai_reanalysis.go:76-98 | Between outside writes a run is refreshed at most once, and not at all when gone or current |
| RefreshProtocol.SomeRunRefreshes | cmd/autoscan-server/ai_reanalysis.go:161-210 | From a store with an outdated run of acceptable size the protocol can run to the refreshed body |
| RefreshProtocol.NextStepIsReady | cmd/autoscan-server/ai_reanalysis.go:161-210 | The call's next request is always one the protocol allows, and the call gets closer to its end |
| RefreshProtocol.Bucket.PutNewObject | cmd/autoscan-server/ai_reanalysis.go:198-203 | A create-only put stores exactly when the key was free and otherwise changes nothing |
| RefreshProtocol.Bucket.PutMatching | cmd/autoscan-server/ai_reanalysis.go:204-208 | A conditional put stores exactly when the tag matches |
| RefreshProtocol.Bucket.BackUpAndPut | cmd/autoscan-server/ai_reanalysis.go:195-209 | Backup and put, with others in between, are the protocol's last two steps |
| RefreshProtocol.Bucket.RefreshObject | cmd/autoscan-server/ai_reanalysis.go:161-210 | The code's sequence of requests, with arbitrary changes by others between any two, is the protocol's sequence of steps |
| RefreshProtocol.UndisturbedRefreshSucceeds | cmd/autoscan-server/ai_reanalysis.go:161-210 | Left alone, a refreshable run of acceptable size ends refreshed and backed up |
| RefreshVerdicts.UndisturbedVerdict | cmd/autoscan-server/ai_reanalysis.go:161-210 | Left alone, a call answers "changed" exactly for a readable run that was reanalysed and fits, "no change" exactly for a missing or a readable current one, and only "changed" touches the store |
| RefreshVerdicts.ChangedMeansReplaced | cmd/autoscan-server/ai_reanalysis.go:204-210 | Whatever others do, "changed" means that this call's last request replaced a body with the tag it had read by the new analysis of the body it had read |
| RefreshVerdicts.NothingToDo | cmd/autoscan-server/ai_reanalysis.go:161-191 | Whatever others do, a run missing at the start or current when read is left alone and answered "no change" |
| RefreshVerdicts.VerdictTellsWhatHappened | cmd/autoscan-server/ai_reanalysis.go:161-210 | In every interleaving, "changed" is answered only by the step that replaced the body read, "no change" only for a missing or current run, and every other answer leaves the store alone |
| RefreshPass.NormalizeRunID | cmd/autoscan-server/runs.go:179-194 | Accepts exactly the ids that are non-empty and made of letters, digits, hyphens and underscores once trimmed |
| RefreshPass.RunResultsAre | cmd/autoscan-server/ai_reanalysis.go:112-119 | The key filter admits exactly the result files directly below a run's own directory |
| RefreshPass.BackupsAreNotScanned | cmd/autoscan-server/ai_reanalysis.go:197 | No backup key passes the filter |
| RefreshPass.EveryRunIsCountedOnce | cmd/autoscan-server/ai_reanalysis.go:120-148 | Scanned runs plus listing errors equal updated, current, failed and cancelled ones |
| RefreshPass.SeenEndsOnce | cmd/autoscan-server/ai_reanalysis.go:106-148 | At most one item ends the pass and it is the last one looked at |
| RefreshPass.StatusSays | cmd/autoscan-server/ai_reanalysis.go:107-148 | Each counter is the number of run results with that outcome, failures including listing errors and objects over 50 MiB |
| RefreshPass.Server.TakeTurn | cmd/autoscan-server/ai_reanalysis.go:127-137 | The slot is given back after every refresh and not taken when cancelled |
| RefreshPass.Server.ScanAll | cmd/autoscan-server/ai_reanalysis.go:106-148 | The counters and the last error are those of the items looked at |
| RefreshPass.Server.Pass | cmd/autoscan-server/ai_reanalysis.go:100-159 | Final counters and state; the slot free and the activity count restored; statuses are published only while the pass is active, and every running one accounts for every scanned run |
| Sessions.ClampPanes | internal/terminal/token.go:69-74 | The pane limit lies in 1..4 and is otherwise the claim's |
| Sessions.StepKeepsRegistry | internal/terminal/session.go:100-164 | Every step keeps: the registry has at most 16 entries and names exactly the live sessions, each under its id |
| Sessions.StepKeepsCallers | internal/terminal/session.go:73-98 | Every step keeps: one creator per session, nobody attaches before the barrier opens, at most two attempts |
| Sessions.StepKeepsPanes | internal/terminal/session.go:265-291 | Every step keeps: a session's pane count is its number of served callers, within its limit |
| Sessions.StepKeepsLinger | internal/terminal/session.go:275-291 | Every step keeps: an open session has a recorded timer that can still run exactly when it once had a pane and has none; a pending timer is the recorded one of an open session |
| SessionRuns.InvAlways | internal/terminal/session.go:73-360 | All of that holds at every point of every run from the empty server |
| SessionRuns.SessionsAreLimited | internal/terminal/session.go:100-120 | Never more than 16 live sessions nor two for one id, and pane counts equal the served callers within 0..limit |
| SessionRuns.AttachReachesTheRegisteredSession | internal/terminal/session.go:73-98 | A successful join attaches to the open, ready session registered for the requested id |
| SessionRuns.RemovalSparesSuccessors | internal/terminal/session.go:157-164 | An id leaves the registry only by its own session's failure or teardown and is never rebound while present |
| SessionRuns.LimitRefusesOnlyStrangers | internal/terminal/session.go:104-109 | The session limit refuses a caller exactly when its id has no live session and 16 others do |
| SessionRuns.ClosedForever | internal/terminal/session.go:268-270 | Once marked closed a session stays closed and no step of any run adds a pane |
| SessionRuns.TornDownOnce | internal/terminal/session.go:308-330 | The done channel is closed at most once per session over every run |
| SessionRuns.AbandonedSessionEnds | internal/terminal/session.go:286-290 | An open session left alone always has a timer that can fire or run, and running it closes the session |
| SessionRuns.RecordedTimerSparesPanes | internal/terminal/session.go:275-290 | The recorded timer never ends a session that has panes |
| SessionRuns.AttachCancelsUnlessFired | internal/terminal/session.go:275-278 | Attaching cancels the timer for good exactly when it has not fired |
| SessionRuns.RetryMeetsTheSameSession | internal/terminal/session.go:74-97 | The retry meets the closed session again exactly while it is still registered |
| SessionRuns.FiredTimerCanEndAnOccupiedSession | internal/terminal/session.go:275-290 | A reachable state in which a fired callback closes a session with an attached caller |
| JoinOutcomes.AttachOutcome | internal/terminal/session.go:265-280 | A caller joins exactly when its session is open and serves fewer callers than its limit, is refused for the limit exactly when it is open and full, and otherwise asks once more or is told it is closed |
| JoinOutcomes.AttachOutcomeInRun | internal/terminal/session.go:73-98 | The same at every point of every run |
| JoinOutcomes.AskOutcome | internal/terminal/session.go:100-120 | Who asks waits for the live session of its id, makes a new one exactly when there is none and room, and is refused otherwise |
| JoinOutcomes.PassOutcome | internal/terminal/session.go:84-97 | A waiting caller goes on exactly when the creation succeeded and is refused exactly when it failed |
| JoinOutcomes.BarrierOutcome | internal/terminal/session.go:78-90 | The creator opens the barrier and goes on exactly when its creation succeeded |
| JoinOutcomes.FailedCreationServesNobody | internal/terminal/session.go:78-97 | After a failed creation the session is never live, attached to or about to be |
| JoinOutcomes.FailedCreationIsTold | internal/terminal/session.go:84-97 | Whoever gets past the barrier of such a session is told that the creation failed |
| TerminalSession.Clock.Stop | internal/terminal/session.go:276 | Stopping affects a pending timer only |
| TerminalSession.Session.Attach | internal/terminal/session.go:265-280 | Success exactly for an open session below its limit, each refusal exactly in its case, and the new state that of the attach step |
| TerminalSession.Session.Detach | internal/terminal/session.go:282-291 | The new state is that of the detach step, with a fresh timer exactly when the last pane leaves an open session |
| TerminalSession.Session.MarkClosed | internal/terminal/session.go:308-316 | Only the first caller changes anything: closed, its reason kept, the recorded timer stopped |
| TerminalSession.Pane.Finish | internal/terminal/pane.go:36-45 | However often the watchers finish, the session loses exactly one pane |
| TerminalSession.Registry.GetOrCreate | internal/terminal/session.go:100-120 | Existing session, refusal at the limit, or a fresh one registered |
| TerminalSession.Registry.Delete | internal/terminal/session.go:324-328 | Only this very session is taken out; a successor under the same id stays |
| Rounding.RoundAwayIsNearest | internal/engine/ai_score.go:10-13 | Rounding moves a value by at most one half |
| Rounding.RoundAwayMonotone | internal/engine/ai_score.go:10-13 | Rounding keeps order |
| Rounding.HalvesGoAway | internal/engine/ai_score.go:10-13 | A half goes away from zero, and negative values round as their opposites |
| Rounding.ToTenthIsRounding | internal/engine/ai_score.go:90 | Rounding whole hundredths is rounding the value they stand for |
| Score.ReconcileTotals | internal/engine/ai_score.go:39-43 | Letting the largest entry absorb the difference makes the entries add up to the target |
| Score.ReconcileGoesNegative | internal/engine/ai_score.go:90-99 | After reconciling, an entry is negative exactly when one was before or the difference overshoots the largest entry |
| Score.FloorLifts | internal/engine/ai_score.go:45-52 | A floor lifts the score exactly to the rounded floor and never lowers it |
| Score.StrengthIsCapped | internal/engine/ai_score.go:150-152 | A pattern's strength lies between 0 and its rule's cap |
| ScoreLaw.StrengthGrows | internal/engine/ai_score.go:150-152 | More occurrences, fewer opportunities and more families never make a pattern weaker |
| ScoreLaw.StrengthUnderConstantRoot | internal/engine/ai_score.go:127-152 | With a constant root c a strength is the cap times n/(n+2), times the cube of c, times one half plus a sixth for each of up to three families |
| ScoreLaw.StrengthVanishes | internal/engine/ai_score.go:150-152 | A strength is zero exactly when the pattern does not occur or the root vanishes at its prevalence, sample size or density |
| ScoreLaw.RuleTable | internal/engine/ai_score.go:137-145 | Each rule's cap and opportunities |
| ScoreLaw.CandidatesAre | internal/engine/ai_score.go:145-160 | The candidates are exactly the occurring rules at their strengths |
| ScoreLaw.SumsAre | internal/engine/ai_score.go:161-175 | Array and other strengths are all strengths, and the array strength is that of the strongest array pattern |
| Score.ArrayPairCountsOnce | internal/engine/ai_score.go:161-181 | The two array patterns together count exactly as much as the stronger one |
| Score.BudgetIsKept | internal/engine/ai_score.go:176 | Scaled strengths add up to at most 24 points' share of the headroom |
| Score.PatternsKeepTheBudget | internal/engine/ai_score.go:176-188 | The four rules add nothing negative, at most the budget's share plus half a hundredth each, and never pass 100 |
| ScoreLaw.PatternsSpendTheBudget | internal/engine/ai_score.go:161-189 | The rules add exactly the strengths, the array pair at its stronger member, up to 24 points, times what the score leaves, but for half a hundredth each |
| ScoreLaw.EntriesAreShares | internal/engine/ai_score.go:177-186 | Each entry is its own share of that |
| Score.FormattingIsSmall | internal/engine/ai_score.go:208-213 | Formatting adds between 0 and 4 points' share of the headroom plus rounding, and never passes 100 |
| ScoreReport.StyleBalances | internal/engine/ai_score.go:19-44 | After style the entries add up to a score in range: the rounded style score when any points are positive |
| ScoreSteps.StylePointsAddUp | internal/engine/ai_score.go:21-35 | The style points add up to the review features' weighted evidence out of the weight of all four, but for half a hundredth each |
| ScoreSteps.StyleEntriesAre | internal/engine/ai_score.go:26-34 | The entries are those of the review features |
| ScoreSteps.StyleScoreIs | internal/engine/ai_score.go:35-43 | The style score counts exactly when some review feature gives a point |
| ScoreSteps.OnlyTheLargestIsChanged | internal/engine/ai_score.go:35-43 | Reconciling changes the points of the first of the largest positive entries and nothing else |
| ScoreReport.FloorBalances | internal/engine/ai_score.go:45-52 | A floor keeps entries and score equal and yields the larger of the two |
| ScoreSteps.FloorEntry | internal/engine/ai_score.go:45-52 | A floor appends one entry with what is missing to the rounded floor |
| ScoreSteps.ToolFloorIs | internal/engine/ai_score.go:77-82 | The floor of a tool file: five points, and five thirds for each of up to three families, times the root at the share of tokens |
| ScoreReport.PatternsBalance | internal/engine/ai_score.go:123-189 | Patterns keep entries and score equal and add at most 24 points' share plus 0.02 |
| ScoreReport.FormattingBalances | internal/engine/ai_score.go:191-214 | Formatting keeps entries and score equal |
| ScoreSteps.FormattingNeeds | internal/engine/ai_score.go:191-208 | Formatting adds its entry exactly with two families, counts and four contexts of twenty samples |
| ScoreSteps.ChoicesAddUp | internal/engine/ai_score.go:196-204 | Counts, samples and consistency add up over the contexts |
| ScoreSteps.SteadyVanishes | internal/engine/ai_score.go:208-209 | Formatting counts for nothing exactly up to 95% consistency or where the root vanishes at 200 samples or 400 tokens |
| ScoreSteps.SteadyUnderConstantRoot | internal/engine/ai_score.go:208-209 | Above 95% it grows in proportion to its full strength at 100% |
| ScoreSteps.FormattingPointsAre | internal/engine/ai_score.go:210 | Two families carry two thirds and three or more the whole of four points' share of what the score leaves |
| ScoreSteps.TwoFamilies | internal/engine/ai_score.go:104-120 | Two families support each other exactly when two well supported review features belong to different ones |
| ScoreSteps.FamiliesOfKeys | internal/engine/ai_score.go:114-117 | The two kinds of comment are one family and every other key is its own |
| ScoreReport.TellsBalance | internal/engine/ai_score.go:64-86 | A flagged attribution lifts to at least 90 and a tool file to its floor of at most 10 |
| ScoreReport.FinishBalances | internal/engine/ai_score.go:90-101 | The final rounding keeps entries and score equal, in range, at a multiple of 0.1 |
| ScoreReport.ScoreIsReconciled | internal/engine/ai_score.go:15-102 | The final entries add up to the score, a multiple of 0.1 in 0..100, at least the style score, the dictionary floor and 90 for an attribution |
| ScoreSteps.ScoreIsBuiltUp | internal/engine/ai_score.go:15-102 | The score is the larger of style and dictionary, plus patterns, plus formatting on what these leave, raised to the tells' floors, rounded to a tenth |
| ScoreReport.EvidenceKeepsSigns | internal/engine/ai_score.go:45-86 | No floor, pattern or formatting entry is negative: before the final rounding only the style step can have left one |
| ScoreReport.ContributionsGoNegative | internal/engine/ai_score.go:15-102 | For every submission: a final contribution is negative exactly when the style step or the final rounding overshoots its largest entry |
| ScoreReport.LastOvershootIsSmall | internal/engine/ai_score.go:90-99 | The final rounding overshoots only downwards, and only where every entry is below 0.04 |
| ScoreReport.ContributionCanBeNegative | internal/engine/ai_score.go:39-43 | A concrete submission, with counts and full sample support, whose report holds a negative contribution |
| ScoreBuilder.CountFamilies | internal/engine/ai_score.go:104-120 | The number of distinct families with a supporting review feature |
| ScoreBuilder.CollectCandidates | internal/engine/ai_score.go:128-160 | One candidate per rule that occurs |
| ScoreBuilder.MeasureCandidates | internal/engine/ai_score.go:161-175 | The loops find the strongest array pattern, the pair's sum and the rest |
| ScoreBuilder.MeasureFormatting | internal/engine/ai_score.go:196-204 | The loop counts contexts of at least 20 samples, their samples and their consistency |
| ScoreBuilder.Report.AddStyle | internal/engine/ai_score.go:19-44 | The in-place loop with its adjustment index is the style step |
| ScoreBuilder.Report.AddFloor | internal/engine/ai_score.go:45-52 | The closure is the floor step |
| ScoreBuilder.Report.AddPatterns | internal/engine/ai_score.go:123-189 | The loops are the pattern step |
| ScoreBuilder.Report.AddFormatting | internal/engine/ai_score.go:191-214 | The in-place addition is the formatting step |
| ScoreBuilder.Report.Finish | internal/engine/ai_score.go:90-100 | The last adjustment is the reconciling step |
| ScoreBuilder.OverallScore | internal/engine/ai_score.go:16-102 | No report exactly when nothing was measured and nothing added; otherwise the reconciled score |
| GradeQueue.StepKeepsCounts | cmd/autoscan-server/grade_async.go:117-122 | Every step keeps: the slot counts its holders, at most one, and the activity count the live tasks |
| GradeQueue.StepKeepsJobs | cmd/autoscan-server/grade_async.go:57-69 | Every step keeps: the job table lists exactly the grade jobs that have not removed themselves |
| GradeQueue.StepKeepsTasks | cmd/autoscan-server/grade_async.go:66-84 | Every step keeps: only a task at work has reporters under way |
| GradeQueue.StepKeepsInv | cmd/autoscan-server/grade_async.go:57-122 | All of the queue's invariant is kept by every step |
| GradeRuns.InvAlways | cmd/autoscan-server/grade_async.go:57-122 | The whole invariant holds at every point of every schedule |
| GradeRuns.AtMostOneHolder | cmd/autoscan-server/sandbox_handler.go:382-400 | Over every schedule at most one job, analysis or refresh holds the slot |
| GradeRuns.SlotIsGranted | cmd/autoscan-server/grade_async.go:117-122 | A waiting task may take the slot exactly when nobody holds it, and its holder may give it back exactly when its reporters are joined |
| GradeRuns.SubmitIsListed | cmd/autoscan-server/grade_async.go:56-61 | A submitted job is listed, active, waiting, and queued at one hundredth or at its id's earlier fraction |
| GradeRuns.AcquiresAreReleasedOnce | cmd/autoscan-server/grade_async.go:117-122 | Each task's acquires and releases balance but for the slot it holds now |
| GradeRuns.CancelledWaiterLeaves | cmd/autoscan-server/grade_async.go:73-78 | A job cancelled while waiting can leave without touching the slot and ends as "grading cancelled" |
| GradeRuns.FractionNeverFalls | cmd/autoscan-server/progress.go:48-79 | No step lowers the fraction of an entry that stays in the table |
| GradeRuns.FractionNeverFallsInRun | cmd/autoscan-server/progress.go:48-79 | Over every run an entry that is never evicted or dropped never moves backwards |
| GradeRuns.ReportIsRecorded | cmd/autoscan-server/progress.go:48-61 | A report leaves the larger of old and reported fraction and the reported stage, and exactly the other entries updated within 900 seconds |
| GradeRuns.NoReportAfterFinish | cmd/autoscan-server/grade_async.go:66-84 | After a job's progress is final none of its reporters starts or arrives, and the job never touches its entry again |
| GradeRuns.QueueFollowsPool | cmd/autoscan-server/grade.go:103-131 | Every interleaving of a job's workers is a schedule of its reporters in the queue, under way exactly as the pool owes them |
| GradeRuns.ReleaseWaitsForThePool | cmd/autoscan-server/grade.go:103-131 | However the workers interleave, the job may release the slot exactly when none of them is busy |
| GradeRuns.FinishRecordsOutcome | cmd/autoscan-server/grade_async.go:73-83 | A job's end leaves done or failed in its entry, with fraction one, or the reached fraction and the reason |
| GradeRuns.ToldBeforeLeaving | cmd/autoscan-server/grade_async.go:67-71 | The caller is told after the progress is final and while the job is still listed and active, so no idle exit comes first |
| GradeRuns.FinalEntryStays | cmd/autoscan-server/progress.go:48-85 | A final state changes only through another task under the same token, eviction or removal |
| GradeRuns.IdleExitIsSafe | cmd/autoscan-server/idle.go:35-68 | With a positive timeout an idle exit means no task is left, the slot is free, and the last work ended long enough ago |
| GradeRuns.IdleExitIff | cmd/autoscan-server/idle.go:35-68 | With a positive timeout the check fires exactly when no task is left and the last one ended at least that long ago |
| GradeRuns.IdleExitNeedsPositiveTimeout | cmd/autoscan-server/idle.go:62 | While anything is active the check fires exactly for a non-positive timeout |
| ServerState.ProgressTracker.Set | cmd/autoscan-server/progress.go:48-61 | Raising and evicting in any key order gives the specified table |
| ServerState.ProgressTracker.Finish | cmd/autoscan-server/progress.go:63-79 | The finished entry, also when it had been evicted |
| ServerState.ExitWhenIdle | cmd/autoscan-server/idle.go:54-69 | Stops at the first tick that is idle long enough, and for a positive timeout never at an active one |
| WorkerPool.EveryIndexOnce | cmd/autoscan-server/grade.go:268-288 | However the workers interleave, every index is processed exactly once and the reports rise to the end of the stage |
| WorkerPool.OwedFollows | cmd/autoscan-server/grade.go:103-115 | Taking an index adds one report to those owed and finishing one pays the least of them |
| WorkerPool.QuietOwesNothing | cmd/autoscan-server/grade.go:268-288 | Nothing is owed exactly when no worker is busy |
| WorkerPool.NeverStuck | cmd/autoscan-server/grade.go:268-288 | Whatever number of workers is asked for, the pool can always go on until it is done |
| Attributes.MatchFindsAttributes | internal/engine/ai_attributes.go:8 | The left-to-right matcher finds exactly the texts of the pattern, and exactly their extent |
| Attributes.SpansAreAttributes | internal/engine/ai_attributes.go:70-82 | Spans ascend without overlap, each is one attribute, and no identifier runs into it |
| Attributes.MaskKeepsPlaces | internal/engine/ai_attributes.go:12-86 | Masking keeps the length, every newline and everything outside the spans, and leaves only blanks and newlines inside |
| LexicalPieces.LexerFindsThePieces | internal/engine/ai_attributes.go:13-86 | However a text is cut into attributes, directives, comments, literals and plain characters, each stated by its extent, the spans are its attributes |
| LexicalPieces.EveryTextHasPieces | internal/engine/ai_attributes.go:13-86 | Every text can be cut that way |
| LexicalPieces.ExactlyAttributesInCodeAreMasked | internal/engine/ai_attributes.go:13-86 | Attributes in code are blanked, everything in directives, comments and literals stays, and no attribute that an identifier does not run into is missed in code |
| Attributes.SkipDirective | internal/engine/ai_attributes.go:27-35 | The loop ends where the character automaton leaves the directive |
| Attributes.SkipBlockComment | internal/engine/ai_attributes.go:43-53 | The loop ends where the automaton leaves the comment, also in an unterminated one |
| Attributes.SkipQuoted | internal/engine/ai_attributes.go:54-69 | The loop ends where the automaton leaves the literal, also after a trailing backslash |
| Attributes.CompatibleUnusedAttributes | internal/engine/ai_attributes.go:13-86 | The lexer with its nested loops finds the spans of the one-character-at-a-time automaton and masks in place exactly those |
| LineOffsets.BuildLineOffsets | internal/engine/fingerprint.go:309-317 | The offsets are 0 and one past every newline |
| LineOffsets.FirstBeyond | internal/engine/fingerprint.go:320-322 | The binary search finds the first offset beyond the position |
| LineOffsets.ByteToLineCol | internal/engine/fingerprint.go:319-328 | Line start plus column is the position, and the next line starts beyond it |
| LineOffsets.LocatesByNewlines | internal/engine/fingerprint.go:319-328 | The line is one more than the newlines before the position, and the column one more than the bytes since the last |
| LineOffsets.MaskingKeepsLines | internal/engine/ai_attributes.go:12-86 | Masking moves no line and no column of any position |

## Left out

- Parsing, syntax-tree walks and the style, tell and pattern heuristics: the model starts from token lists, feature lists and counts.
- `log2`, `exp2`, `sqrt`, token entropy and the rounding of metrics: exact reals, with functions as parameters; floating-point error is not modelled.
- SHA-256, entity tags and JSON encoding: they are assumed to tell apart the bodies or streams that one run meets; a saved body is a map of fields, so duplicate or differently capitalised JSON keys are not modelled.
- Ordering of dictionary matches by share and of report rows; snippets and the text of details.
- Symmetry of the tiling and idempotence of setting solution code aside: the code gives neither.
- Parallel loops over independent indices in the engine are modelled sequentially; Go's sort as insertion sort with the same order.
- SavedResult.Reanalyze: analysis, rescoring and the final linking and sorting of rows are parameters; cancellation and failures to create the temporary directory or its files, other than those of colliding names, are not modelled, and each of them only turns an update into a failure.
- SavedResult.CheckSubmissions: two names that differ but that the file system takes for the same are not modelled.
- TokenMetrics.SetTokenMetrics: does not state token entropy, perplexity, the unknown share or the rounding of metrics, because they are sums and roots over the counts and moments that are stated.
- Windows.SetLocalTokenWindows: does not state the roots, the burstiness value or its rounding, because they are single expressions over the stated mean and squared deviation.
- RefreshPass.Server.TakeTurn: waiting for a busy slot is modelled in `GradeQueue`; here a turn either gets the slot or is cancelled.
- RefreshPass.Server.Pass: start and finish times, and the status file, are not modelled.
- GradeRuns.NoReportAfterFinish: that the slot is released only after the reporters are joined is a guard of the queue's step; `GradeRuns.ReleaseWaitsForThePool` derives it for the pool that runs submissions, and the pool that compiles them is not modelled.
- `RefreshProtocol`: nobody but a refresh writes below a run's backup directory; body sizes and tags are parameters.
- `Sessions`: durations are not modelled, timers fire at any time; the pane host process, its sockets and the wait for its exit are left out, and a session ends by a nondeterministic step that stands for inactivity, the time limit, the process's exit and shutdown.
- `Sessions`: what is left running when a shutdown meets a session still being created.
- `TerminalSession.Pane.Finish`: the pane's goroutines are left out; what is kept is that any number of them may finish it.
- `ScoreBuilder.OverallScore`: labels, details and source locations of contributions.
- `GradeQueue`: downloads, compilation and grading itself; a job's work is the set of its reporters, and errors are messages.
- `GradeRuns.FinalEntryStays`: a sandbox request may choose any progress token, so a token equal to a run's id is admitted rather than excluded.
- HTTP handlers, configuration, uploads, archive extraction, callbacks and run pruning.
- Output diffs and capped buffers: correct models are possible but easy.
