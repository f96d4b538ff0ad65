# Proofs about the Ditto screener

The screener takes an agent submission from a queue, checks its archive, reads its source with
static rules and with a chain of language models, builds and probes its image, lets a policy
engine decide, and posts a signed result. This project models the parts of it where a mistake
would be quiet: the scanners every static rule depends on, the closures that decide which files
are looked at, the parsers of untrusted bytes, the review state machine over untrusted model
answers, the framings that are hashed or signed, and the routing that turns all of it into one
record that other validators must accept. Each model follows its source branch by branch; the
theorems quantify over every input, every answer a model or an analyzer may give, and every
cache history.

`dafny verify dfyconfig.toml` checks everything.

| file | what it models |
|---|---|
| `CommentMask.dfy`, `StringMask.dfy` | the two source maskers and the three line-aligned views of a file |
| `ProtoWire.dfy`, `TensorRanges.dfy` | the Protocol Buffers wire parser (Protocol Buffers Encoding, sections "Base 128 Varints" and "Message Structure") and the safetensors range sweep |
| `RuntimePaths.dfy`, `CallGraph.dfy`, `ScoreBindings.dfy`, `Walk.dfy` | the runtime-path, Cargo-manifest, call-graph and score-binding worklists, and the bounded syntax walk |
| `ChunkedBody.dfy` | the chunked body reader (section 7.1 of RFC 9112) |
| `Archive.dfy`, `Paths.dfy` | the archive contract, the rewritten build context and the hashed source stream |
| `PortableImage.dfy` | the portable image archive and its ChainIDs (OCI Image Specification, `config.md`, section "Layer ChainID") |
| `Heartbeat.dfy`, `Verdict.dfy`, `Json.dfy`, `Text.dfy` | the signed heartbeat and verdict payloads |
| `Trajectory.dfy`, `ReviewFlow.dfy`, `Clearance.dfy` | one tool-call conversation, the review that chains up to three of them behind three caches, and what a review reports in terms of what the models submitted |
| `Policy.dfy`, `Gate.dfy`, `Explained.dfy`, `Protocol.dfy`, `Worker.dfy` | the policy engine, the gate's routing, what an operator is told with a decision, the protocol's validators and the worker's assembly of the result |
| `Common.dfy` | optional values, byte strings and permutations |

How the models are set up:

- Code that works in loops over updated variables is a method with the same loops, proved equal
  to a function or to a declarative description (a least fixed point, a permutation, an exact
  set); the theorems are lemmas about that function or description. The caches of the review and
  the stream of the body reader are fields of classes, and a ghost field of the review logs its
  runs.
- Model answers, analyzer answers, the network, Docker, the clock, TOML, regular expressions and
  Rust tokenizing are parameters that may take any value. SHA-256 is an arbitrary function.
- A Python `str` is a `string`, bytes are numbers below 256, and in the archive and image modules
  a byte is a character. Line breaks are `'\n'`. Token costs are real numbers.
- Exceptions are constructors of a result type, or an empty option where the caller only turns
  them into a retry.

Four properties one might expect do not hold. Each has an input, and an exact condition:

- A model that reuses a call id, or sends an output item itself, gets a transcript in which a
  call has two outputs (`Trajectory.ReusedIdIsAnsweredTwice`). At every post, every call has
  exactly one later output under its id if and only if the model did neither
  (`Trajectory.PostsAreAnsweredOnceIffClean`); what the harness itself guarantees for all answers
  is `Trajectory.PostsArePaired`.
- The usage of a review may exceed the caps (`ReviewFlow.SecondTurnMayOverspend`). It does if and
  only if the result says that a stage broke the budget, and then that stage's last turn did it
  (`ReviewFlow.FlowIsBalanced`).
- A safetensors header may make the range check raise instead of reporting
  (`TensorRanges.ConflictingTensors`). It does if and only if two candidates agree on start, end
  and name prefix and differ in their records (`TensorRanges.SafetensorsDetails`).
- A deferred admission may be lost to a retry although everything passed: the gate puts the
  deferral's evidence in front of the decision's without cutting it to the bound again
  (ditto_screener/gate.py:933). `Gate.DeferredPassMayOverflow` is such a run, and
  `Gate.JudgesIffFits` and `Gate.AdmittedIff` say exactly when it happens.

## Model

| member | source | states |
|---|---|---|
| `CommentMask.MaskComments` | ditto_screener/source_signals.py:875-964 | the jumping scanner returns the text in which exactly the non-newline characters are blank that a one-character-at-a-time lexer reads inside a line comment or a nested block comment |
| `CommentMask.RunIsUnique` | ditto_screener/source_signals.py:899-963 | a text has one run of the reference lexer, so the reference is no arbitrary choice |
| `CommentMask.RawBodyModes` | ditto_screener/source_signals.py:929-940 | the lexer's per-character count of quote and hashes leaves a raw string exactly after the first occurrence of the terminator |
| `CommentMask.MaskedBlanks` | ditto_screener/source_signals.py:875-964 | masking keeps the length and every newline, and changes characters only to spaces |
| `CommentMask.ErasedRun` | ditto_screener/source_signals.py:899-963 | the lexer of the masked text walks in step with the lexer of the text: no blanked lookahead makes or breaks a comment, a raw string or a character literal |
| `CommentMask.MaskedHasNoComment` | ditto_screener/source_signals.py:875-964 | a masked text has no comment character left |
| `CommentMask.MaskIdempotent` | ditto_screener/source_signals.py:875-964 | masking twice is masking once, for every text |
| `StringMask.MaskStringLiterals` | ditto_screener/source_signals.py:967-1006 | the quote, width and escape loop blanks exactly the characters its automaton reads inside a literal, delimiters included, line breaks excepted |
| `StringMask.UnquotedBlanks` | ditto_screener/source_signals.py:967-1006 | the mask keeps length and line breaks and writes only spaces |
| `StringMask.UnquotedHasNoQuote` | ditto_screener/source_signals.py:976-995 | no quote character of any kind survives |
| `StringMask.UnquotedIdempotent` | ditto_screener/source_signals.py:967-1006 | masking twice is masking once |
| `StringMask.BlanksKeepLines` | ditto_screener/source_signals.py:800-812 | with `'\n'` as the only line break, a text and its mask split into equally many lines, each the mask of its line |
| `StringMask.SplitOfJoin` | ditto_screener/source_signals.py:811-812 | with `'\n'` as the only line break, splitting a join of lines gives the lines back, but for one trailing empty line |
| `StringMask.JoinOfSplit` | ditto_screener/source_signals.py:800-812 | with `'\n'` as the only line break, a text is its lines joined, but for a newline at its end, so every other character stands in exactly one line |
| `StringMask.SourceViews` | ditto_screener/source_signals.py:800-812 | with `'\n'` as the only line break, the three views have equally many lines; line by line, the comment-masked view blanks exactly the comment characters of the text, and the executable view exactly the literal characters of the joined comment-masked lines; everything else is the raw text, and no quote survives |
| `ProtoWire.ReadVarint` | ditto_screener/binary_analysis.py:452-462 | the shifting loop computes the base-128 value and its end, or nothing when it is cut or longer than ten bytes |
| `ProtoWire.PayloadRoundTrip` | ditto_screener/binary_analysis.py:478-512 | the payload of an encoded record is read back as the record's field, and the reading stops exactly at its end |
| `ProtoWire.ProtobufFields` | ditto_screener/binary_analysis.py:465-513 | the loop computes the recursive parse, with its field limit and its statuses |
| `ProtoWire.TruncationLosesATail` | ditto_screener/binary_analysis.py:452-513 | for every byte string and prefix, the prefix parses to the same fields cut off: complete ones agree, and an incomplete last one has the same number, type and declared length and a value that is a prefix |
| `ProtoWire.VarintRoundTrip` | ditto_screener/binary_analysis.py:452-462 | an encoded varint below 2^70 is read back wherever it stands |
| `ProtoWire.RecordRoundTrip` | ditto_screener/binary_analysis.py:471-512 | an encoded record is read back with its exact extent |
| `ProtoWire.RoundTrip` | ditto_screener/binary_analysis.py:465-513 | encoding records and parsing gives them back with status complete; more than 4096 give the first 4096 and the limit status |
| `ProtoWire.CompleteIffTiled` | ditto_screener/binary_analysis.py:465-513 | a parse is complete with some fields exactly when consecutive spans tile the input, each parsing alone to its field |
| `TensorRanges.CollectCandidates` | ditto_screener/binary_analysis.py:398-418 | candidates are exactly the in-payload ranges in header order, and every other tensor counts as invalid |
| `TensorRanges.SortRanges` | ditto_screener/binary_analysis.py:424 | a permutation sorted by start, end and name prefix; sorting raises exactly when two candidates agree on all three and differ in their records |
| `TensorRanges.ConflictingTensors` | ditto_screener/binary_analysis.py:399-424 | a header of two tensors with different names on which sorting raises |
| `TensorRanges.SweepRanges` | ditto_screener/binary_analysis.py:420-439 | the sweep accepts, counts, samples and totals exactly what the greedy description accepts |
| `TensorRanges.RefusesIffOverlap` | ditto_screener/binary_analysis.py:424-428 | a sweep over the first ranges of a sorted list refuses one exactly when two of them overlap; the tie-break on the end makes this true of empty ranges |
| `TensorRanges.SweepIsExact` | ditto_screener/binary_analysis.py:398-449 | the sweep refuses nothing exactly when all ranges are pairwise apart |
| `TensorRanges.AcceptedAreRanges` | ditto_screener/binary_analysis.py:424-439 | accepted ranges come from the ranges swept, each at most as often |
| `TensorRanges.AcceptedFit` | ditto_screener/binary_analysis.py:428-430 | accepted ranges are pairwise apart, and their bytes fit below the last end, hence in the payload |
| `TensorRanges.ApartOfPermutation` | ditto_screener/binary_analysis.py:424 | being pairwise apart does not depend on the order of the entries |
| `TensorRanges.TensorReport` | ditto_screener/binary_analysis.py:398-449 | it raises exactly when two candidates conflict, reports nothing exactly without a candidate, and otherwise accurately: accepted plus invalid is the entries considered, the total fits the payload, and no refusal means the candidates are pairwise apart |
| `TensorRanges.SafetensorsDetails` | ditto_screener/binary_analysis.py:386-449 | no report for an unreadable header; for a readable one it raises exactly on a conflict, and reports exactly when there is a candidate and none |
| `RuntimePaths.AddCargoRuntimePaths` | ditto_screener/source_review.py:1128-1201 | the visited manifests are the least set with the root manifest, path dependencies and workspace members, whatever repeats in the pending list |
| `RuntimePaths.ReadManifest` | ditto_screener/source_review.py:1136-1201 | one manifest contributes its targets and queues its dependencies and workspace members |
| `RuntimePaths.AddReferences` | ditto_screener/source_review.py:1110-1114 | references are added and queued in any order, with the source's growth test |
| `RuntimePaths.ScanSource` | ditto_screener/source_review.py:1103-1125 | one scan adds exactly what the file demands: scripts it runs, members it includes, and every Rust member when an include is unresolved |
| `RuntimePaths.ScanPending` | ditto_screener/source_review.py:1093-1126 | from any seeds, the pending loop ends with the least set that honours every Rust file in it |
| `RuntimePaths.ExplicitRuntimePaths` | ditto_screener/source_review.py:1067-1126 | the result is the least runtime set over the seeds of the least manifests: executable members, Cargo targets and the Dockerfile's scripts |
| `RuntimePaths.LeastIsUnique` | ditto_screener/source_review.py:1093-1126 | there is one such set, so no pop or iteration order changes the result |
| `CallGraph.Explore` | tools/l2_analyzer.py:448-487 | the queue loop terminates and lists reachable definitions once each; the flag says that the queue is not empty, and the list is exact if and only if everything left in the queue is listed, so a flag over listed ids alone hides nothing |
| `CallGraph.FollowCalls` | tools/l2_analyzer.py:462-486 | unique candidates not seen are queued, several are ambiguous, none is unresolved |
| `CallGraph.Search` | tools/l2_analyzer.py:448-503 | the graph of the unique entry, with exact counts of ambiguous and unresolved calls; no entry or several give an empty one |
| `CallGraph.NodesAreReachableDefinitions` | tools/l2_analyzer.py:448-487 | with distinct ids, an exact list holds precisely the definitions reachable through calls with one candidate |
| `ScoreBindings.DeriveScoreBindings` | tools/l2_analyzer.py:819-849 | the passes end with the least set closed under "bound to a value that mentions a score term or a bound name" |
| `ScoreBindings.OrderIndependent` | tools/l2_analyzer.py:836-849 | the bindings depend on which candidates there are, not on their order |
| `ScoreBindings.BoundIffDerived` | tools/l2_analyzer.py:819-849 | a name is bound exactly when a chain of assignments carries a score term to it |
| `Walk.Visit` | tools/l2_analyzer.py:1097-1104 | the stack walk returns the first nodes of recursive preorder up to the cap, and reports truncation exactly when there are more |
| `ChunkedBody.ReadChunkedBody` | ditto_screener/fake_gateway.py:358-377 | the nested loops terminate on every stream and return exactly what the recursive decoder decodes, consuming exactly its bytes |
| `ChunkedBody.ReadChunk` | ditto_screener/fake_gateway.py:361-377 | one chunk: size line as `int(…, 16)` reads it, the cap, the bytes and their line break |
| `ChunkedBody.DigitIff` | ditto_screener/fake_gateway.py:365 | the sixteen digits of a size line and their values, in either case |
| `ChunkedBody.ReadTrailers` | ditto_screener/fake_gateway.py:369-374 | trailer lines are consumed up to the first empty one |
| `ChunkedBody.ChunkedRoundTrip` | ditto_screener/fake_gateway.py:358-377 | any chunking of a body within the cap, with any extensions and trailers and whatever follows, decodes to that body and consumes exactly its encoding |
| `ChunkedBody.DecodedIsBounded` | ditto_screener/fake_gateway.py:366-367 | on every input a decoded body is within the cap and the cursor within the stream |
| `Archive.ContractError` | ditto_screener/gate.py:1502-1601 | the member loop and the Dockerfile checks report exactly the first error of the description |
| `Archive.ClearIffNoError` | ditto_screener/gate.py:1508-1557 | the members pass exactly when they are few, small, all clean, and under pairwise different names, a description without an order |
| `Archive.AcceptanceIgnoresOrder` | ditto_screener/gate.py:1508-1557 | the member check accepts every order of accepted members |
| `Archive.UnsafeIff` | ditto_screener/gate.py:1518-1525 | a name is refused as unsafe if and only if it is empty, absolute, has a backslash, has `..` between its slashes, or starts with a drive |
| `Archive.AcceptedStaysInside` | ditto_screener/gate.py:1508-1557 | no accepted member has a name that leads outside the directory it is unpacked in |
| `Paths.PartsIff` | ditto_screener/gate.py:1518-1524 | the parts of a path are what lies between its slashes, but for nothing and the dot |
| `Archive.NormalizedContext` | ditto_screener/gate.py:441-477 | the rewriting loop drops the root entry, strips one leading `./` and keeps files and directories in order |
| `Archive.ContextIsAccepted` | ditto_screener/gate.py:441-477 | the context of an accepted archive passes the member check again, has the same paths with the same bytes, and is its own context |
| `Archive.ContextMeetsContract` | ditto_screener/gate.py:441-477 | the context meets the whole contract when the archive did |
| `Archive.SourceStream` | ditto_screener/gate.py:1603-1626 | the hashed bytes are the framed files in the order of their names, and the path list is the least 256 names |
| `Archive.StreamDetermines` | ditto_screener/gate.py:1612-1623 | with names free of NUL, equal streams mean the same paths with the same bytes |
| `Archive.StreamIsUnique` | ditto_screener/gate.py:1608-1623 | a file map has one stream |
| `Archive.OrderDoesNotMatter` | ditto_screener/gate.py:1608-1611 | reordered accepted members are accepted and have the same file map, hence the same stream |
| `Archive.ContextHasTheStream` | ditto_screener/gate.py:441-477 | rewriting to the build context leaves the stream as it is |
| `Paths.CanonicalHasNoPrefix` | ditto_screener/gate.py:1532 | a path that prints as it is read is not empty and has no `./` in front |
| `PortableImage.Convert` | ditto_screener/gate.py:1088-1330 | an archive is written only for a well-formed image below the cap, and is the described one; a refusal as malformed or too large names a real fault |
| `PortableImage.ConvertLayers` | ditto_screener/gate.py:1240-1279 | the layer loop's running chain and size are the ChainID and the projected size of the layers so far |
| `PortableImage.ManifestLists` | ditto_screener/gate.py:1277-1290 | the manifest names the config and then every layer, quoted, in order and right behind the comma after the one before |
| `PortableImage.CheckMembers` | ditto_screener/gate.py:1109-1168 | few members, safe names, no name twice |
| `PortableImage.ConvertedLayers` | ditto_screener/gate.py:1243-1279 | every layer's bytes are unchanged, in order, hash to the declared id, and stand under the ChainID up to that layer |
| `PortableImage.WriteTar` | ditto_screener/gate.py:1300-1322 | the written file has the computed size; it holds every header and member at its offset, and everything else in it is zeros |
| `PortableImage.ProjectionBounds` | ditto_screener/gate.py:1292-1298 | the written file is smaller than projected, so the check after writing cannot fail, and no member needs an extended header |
| `Heartbeat.PayloadIsUnambiguous` | ditto_screener/signing.py:112-169 | two valid heartbeats of any versions with equal payloads agree in every signed field, and from version 3 on they are the same |
| `Heartbeat.PayloadIsRead` | ditto_screener/signing.py:112-169 | splitting a payload at its colons, and its tokens at their commas, finds every field in its place: title, version, hotkey, software, protocol, policy, state, agent, and by version instance, progress, metrics, settings and time |
| `Heartbeat.PartsReadBack` | ditto_screener/signing.py:127-169 | equal payloads have equal version, common fields and tail |
| `Heartbeat.MetricsReadBack` | ditto_screener/heartbeat.py:194-210 | the metrics token determines the metrics, absent ones included |
| `Heartbeat.SettingsReadBack` | ditto_screener/heartbeat.py:164-180 | the settings token determines the settings |
| `Heartbeat.ProgressReadsBack` | ditto_screener/heartbeat.py:213-217 | the progress token determines the progress |
| `Json.ObjectReadsBack` | packages/ditto-screening-protocol/ditto_screening_protocol/signing.py:72-76 | the compact print of an object determines its members, whatever code points other than surrogates the strings hold |
| `Verdict.SigningMessage` | packages/ditto-screening-protocol/ditto_screening_protocol/signing.py:37-97 | the step-by-step dictionary prints the message of the claims, or the error the source raises |
| `Verdict.KeysAreSorted` | packages/ditto-screening-protocol/ditto_screening_protocol/signing.py:72-76 | the print order is the sorted order of the key names |
| `Verdict.DumpsDetermine` | packages/ditto-screening-protocol/ditto_screening_protocol/signing.py:72-76 | dictionaries that print alike are alike, absent keys included |
| `Verdict.MembersAreNamed` | packages/ditto-screening-protocol/ditto_screening_protocol/signing.py:41-57 | which field of the verdict stands under which name in the signed object |
| `Verdict.ImageIsNamed` | packages/ditto-screening-protocol/ditto_screening_protocol/signing.py:41-57 | the same for the image fields |
| `Verdict.SettingsAreNamed` | packages/ditto-screening-protocol/ditto_screening_protocol/signing.py:58-66 | the same for the settings, which are signed with a revision |
| `Verdict.OptionsAreNamed` | packages/ditto-screening-protocol/ditto_screening_protocol/signing.py:67-72 | the same for a deferral and for the digest of an audit |
| `Verdict.NothingElseIsSigned` | packages/ditto-screening-protocol/ditto_screening_protocol/signing.py:41-77 | the signed object has no member but these: thirteen, one each for a deferral and an audit, and four for the settings |
| `Verdict.TypedIsUnambiguous` | packages/ditto-screening-protocol/ditto_screening_protocol/signing.py:37-77 | typed verdicts with equal messages agree in every signed field, absent optional ones included |
| `Verdict.UntypedIsRead` | packages/ditto-screening-protocol/ditto_screening_protocol/signing.py:78-97 | splitting an untyped message at its colons finds title, version, hotkey, agent, attempt, result and policy in their places |
| `Verdict.UntypedIsUnambiguous` | packages/ditto-screening-protocol/ditto_screening_protocol/signing.py:78-97 | untyped verdicts with equal messages agree in every signed field |
| `Verdict.VersionsAreDisjoint` | packages/ditto-screening-protocol/ditto_screening_protocol/signing.py:37-97 | no message of one version is a message of another |
| `Trajectory.TruncationIsExact` | ditto_screener/l2_review.py:273-282 | the recursive search finds a true truncation flag exactly when a path through lists and dictionaries leads to one |
| `Trajectory.RunTrajectory` | ditto_screener/l2_review.py:2597-2825 | over any model and analyzer: the loop posts exactly the transcripts of the answers that let it go on, up to the first that does not, which ends it in the outcome told by that answer and the analyzer alone, or up to the step limit |
| `Trajectory.RunIsTold` | ditto_screener/l2_review.py:2626-2825 | the same of the run as a value, with the models heard and the analyzers run that a returned review comes with |
| `Trajectory.OutcomeIff` | ditto_screener/l2_review.py:2626-2825 | every outcome exactly: a run ends inconclusive, for infrastructure, or failed with each code if and only if its last answer, or the first call in it that gets no reply, says so |
| `Trajectory.ReviewedIff` | ditto_screener/l2_review.py:2666-2764 | a review is returned if and only if the last answer submitted it, alone and well-formed, within the caps |
| `Trajectory.StepIsTold` | ditto_screener/l2_review.py:2626-2825 | one step from where the answers so far lead: it goes on to where the answers lead with this one, or ends as this one says |
| `Trajectory.AffordableIff` | ditto_screener/l2_review.py:2827-2850 | a conversation is within the caps exactly when the total of its input, a cached token counting a tenth, its output and its cost are |
| `Trajectory.CostIsPriced` | ditto_screener/l2_review.py:3864-3886 | the price of a turn in whole units, in both tiers |
| `Trajectory.StepKeepsPairs` | ditto_screener/l2_review.py:2626-2825 | a step leaves every call replied to, in order, under its own id and after it, and shows no true truncation flag |
| `Trajectory.OneStepKeeps` | ditto_screener/l2_review.py:2626-2825 | a step counts its analyzer runs within twice the limit, adds the turn's usage and nothing else, keeps the caps unless it ends for the budget, tolerates one idle turn and no second, and returns only what the answer submitted alone |
| `Trajectory.AnswerAll` | ditto_screener/l2_review.py:2766-2824 | the tool calls of one answer are replied to in order until one ends the conversation |
| `Trajectory.PostsArePaired` | ditto_screener/l2_review.py:2626-2825 | at every post, every call so far has been replied to, in order, under its own id and after it, and no analysis shown holds a true truncation flag |
| `Trajectory.AnsweredOnceIffClean` | ditto_screener/l2_review.py:2626-2825 | in a transcript whose calls are paired, each call has exactly one later output under its id if and only if the model reused no id and forged no output |
| `Trajectory.PostsAreAnsweredOnceIffClean` | ditto_screener/l2_review.py:2626-2825 | the same at every post of every run |
| `Trajectory.ReusedIdIsAnsweredTwice` | ditto_screener/l2_review.py:2626-2824 | every run whose model sends one malformed call in its first two answers posts, third, a transcript in which that id has two outputs |
| `Trajectory.RunIsBounded` | ditto_screener/l2_review.py:2626-2850 | at most the limit of posts and twice as many analyzer runs, no two tool-less answers in a row but at the end, the caps met after every turn but perhaps the last, the usage reported is the sum of the turns, and a returned review is the one last submitted |
| `Trajectory.AddUsageAssociative` | ditto_screener/l2_review.py:3826-3842 | usage adds up the same in any grouping, unreported costs included |
| `ReviewFlow.MixedFamiliesIff` | ditto_screener/l2_review.py:3389-3408 | families are mixed exactly when one of the lead's was kept and another is in play |
| `ReviewFlow.SourceReviewAgent.RunAnalyst` | ditto_screener/l2_review.py:1563-1602 | the cached or fresh analyst; only a fresh answer is cached, and a replay is free |
| `ReviewFlow.SourceReviewAgent.RunCritic` | ditto_screener/l2_review.py:2028-2068 | the cached or fresh critic; only a fresh answer over a complete dossier is cached |
| `ReviewFlow.SourceReviewAgent.RunViolation` | ditto_screener/l2_review.py:1628-1999 | what the analyst did not clear is not cleared, and where a violation needs adjudication it is reported exactly when a second conversation found one on the same basis, or on one that a tiebreaker settled |
| `ReviewFlow.SourceReviewAgent.RunTiebreaker` | ditto_screener/l2_review.py:1783-1966 | a dispute never ends in a clearance, and ends in a violation exactly when a third conversation found one on one of the two disputed bases |
| `ReviewFlow.SourceReviewAgent.RunAdjudicator` | ditto_screener/l2_review.py:2132-2434 | a clearance stands exactly with a safety certificate against the lead, or against the critic's evidence if it challenged |
| `ReviewFlow.SourceReviewAgent.RunSafe` | ditto_screener/l2_review.py:2000-2131 | a safe analyst is cleared exactly when the stages it leads to hold a certificate, and the critic cache is updated only by a fresh, complete answer |
| `ReviewFlow.SourceReviewAgent.RunModel` | ditto_screener/l2_review.py:1540-2434 | the whole flow, with what it leaves in both stage caches |
| `ReviewFlow.SourceReviewAgent.Review` | ditto_screener/l2_review.py:1343-1433 | the reviewed or cached result, exactly what is stored and when, and a log that grows by exactly this call's run; every cache entry was left by a logged run for its key, and a clearance was certified in one and submitted as safe by a model; a lock or a late result is a retry |
| `ReviewFlow.LayeredSourceReviewAgent.ResolveLead` | ditto_screener/l2_review.py:3257-3299 | over every history of caches and answers: the log grows by exactly this call's run, and in enforce mode the review's own risk and disposition are handed on, a lead being cleared only on a certificate that a logged run for its cache key held and on a safe review that a model submitted; in shadow mode and with the layers off the lead stands |
| `ReviewFlow.ClearsIffCertified` | ditto_screener/l2_review.py:1540-2434 | a flow clears an artifact if and only if its stages hold a certificate, and then reports the certified observation |
| `ReviewFlow.ClearingRunIsCertified` | ditto_screener/l2_review.py:1540-2434 | a logged run that clears its artifact held a certificate |
| `ReviewFlow.CertificateRestsOnAnalyst` | ditto_screener/l2_review.py:1563-1602 | behind every certificate stands an analyst conversation, in that run or an earlier one for the same stage key, that gave the analyst's result |
| `ReviewFlow.HoldIsTold` | ditto_screener/l2_review.py:2666-2764 | a stage has a result if and only if its last answer submitted a review within the caps, and the result is that review: its risk, digest, categories, finding, basis, analyzed files and causal path, with the books of the conversation; a review that leaves the matter open is an inconclusive failure |
| `ReviewFlow.CertifiedIsSubmitted` | ditto_screener/l2_review.py:1540-2434 | what a certificate of a logged run is about was submitted as safe by the analyst, then or earlier for the same stage key, or by the adjudicator of that run |
| `Clearance.CertificateIsSubmitted` | ditto_screener/l2_review.py:1563-2434 | behind every certificate stands a low-risk review the analyst submitted; either it meets every fact of a direct clearance, or the adjudicator of the same run submitted a low-risk one that meets every fact of the safety clearance |
| `Clearance.FlowIsTold` | ditto_screener/l2_review.py:1540-2434 | with empty caches: a review reports a decision if and only if a layer it reaches submitted it and it prevails: an analyst with a direct certificate or an undisputed violation, an adjudicator with the last word, a cause or a tiebreaker that agrees on a basis |
| `Clearance.FlowGivesUp` | ditto_screener/l2_review.py:1440-2434 | with empty caches: a review is exhausted if and only if the analyst ran out of its budget, with the audit of its conversation, raises if that does not fit the public record, and is inconclusive if and only if the dossier or a layer it reaches leaves the matter open or two layers disagree |
| `Clearance.DirectIff` | ditto_screener/l2_review.py:3322-3347 | a clearance is direct exactly for a medium lead over a complete dossier and call graph, with a low-risk review under no category, confident to 0.98, with no evidence left, on a safe basis, served by the right model, and with a causal path from the context over a decision to a sink |
| `Clearance.LastWordIff` | ditto_screener/l2_review.py:3350-3386 | an adjudicator has the last word exactly with a certain low-risk review by the other model that analyzed every path held against the artifact, with a causal path through all four roles |
| `Clearance.NeedsCauseIff` | ditto_screener/l2_review.py:3389-3448 | which violations need a second conversation: those that mix families of effects with the lead's, or rest on a basis that is easily confused |
| `ReviewFlow.AdjudicationClears` | ditto_screener/l2_review.py:2292-2434 | adjudication clears exactly with a safety certificate against the right evidence |
| `ReviewFlow.ViolationIsNotSafe` | ditto_screener/l2_review.py:1628-1999 | no path from an analyst that did not clear the artifact can clear it |
| `ReviewFlow.ViolationNeedsAgreement` | ditto_screener/l2_review.py:1629-1986 | an adjudicated violation is reported if and only if a second conversation found one and two of the three agree on its basis |
| `ReviewFlow.HoldKeepsBudget` | ditto_screener/l2_review.py:2645-2651 | a stage that ends with a result kept the caps of the whole run; one that fails on the budget broke them with the last turn of its own conversation, and the usage before that turn met them |
| `ReviewFlow.FlowIsBalanced` | ditto_screener/l2_review.py:1540-2434 | over all stages, cached ones being free: the usage of a returned result is over the caps if and only if the result says that a stage broke the budget, and then it was that stage's last turn that took the whole review over |
| `ReviewFlow.SecondTurnMayOverspend` | ditto_screener/l2_review.py:2626-2651 | a review whose analyst breaks the caps with its second turn |
| `ReviewFlow.FlowIsAccounted` | ditto_screener/l2_review.py:1456-1507 | however a review ends, an exhausted one carries the audit a deferred admission needs |
| `Policy.ReportsAreEvidenced` | ditto_screener/policy.py:340-920 | every built-in module gives evidence whenever it does not clear, and only source review can be exhausted |
| `Policy.ReportIsTold` | ditto_screener/policy.py:340-920 | what every module reports, both ways, from what it met: when it clears, trips, gives up, accuses, stays open, is down or raises, and how many evidence items it leaves |
| `Policy.RunPhase` | ditto_screener/policy.py:954-1001 | the loop over one phase's modules computes the fold of their reports |
| `Policy.EvaluatePolicy` | ditto_screener/policy.py:936-1038 | the decision of the two phases is sound and no rejection, a mechanical run passes with no evidence, and the outcome of a full review is decided, both ways, by what its modules met |
| `Policy.EvaluatesSoundly` | ditto_screener/policy.py:936-1065 | whatever the modules see, the engine never rejects, never quarantines without evidence, never defers without an audit, and a mechanical run only passes |
| `Policy.PassesIff` | ditto_screener/policy.py:954-1038 | a full review passes outright if and only if every module clears or trips, no review ran out of its budget, and a tripwire was released by a private pack that cleared |
| `Policy.AdmitsIff` | ditto_screener/policy.py:954-1065 | a full review passes or defers if and only if every module clears, trips or gives up, a tripwire was released by a private pack that cleared, and an exhausted review left its audit; it defers exactly after an exhausted review and keeps the evidence up to the bound |
| `Policy.OutcomeIff` | ditto_screener/policy.py:936-1065 | every other outcome of a full review: a retry, an inconclusive or a quarantine if and only if the first module that ends it, selectors first, is down, stays open or accuses, or a tripwire was not released; nothing if and only if it raises or an exhausted review left no audit |
| `Policy.DecidesUnlessRaised` | ditto_screener/policy.py:936-1065 | with a review that accounts for its exhaustion, the engine comes to a decision unless a module raises |
| `Policy.CleanPacksPass` | ditto_screener/policy.py:581-665 | two clean packs of eight challenges fill the evidence of a passing decision |
| `Explained.ReportIsExplained` | ditto_screener/policy.py:340-920 | what every module says with its report: whose items, under which codes and digests, the gravest kind of category of a review, one item for each challenge up to the first that failed, and whose finding and audit |
| `Explained.DecisionIsExplained` | ditto_screener/policy.py:936-1065 | what a full review puts in writing: the evidence of the modules that ran, in order and cut to the first sixteen items, the finding of a source review that spoke, and the audit of one that gave up |
| `Gate.Prepare` | ditto_screener/gate.py:655-915 | a screening gets to a healthy image exactly when every stage before it does its part and a lead lets it run; otherwise its decision is fit and does not pass |
| `Gate.Screen` | ditto_screener/gate.py:592-1026 | the decision is fit, an image is published exactly for a passing one, and every outcome is decided, both ways, by the facts of the screening |
| `Gate.ScreeningIsFit` | ditto_screener/gate.py:592-1026 | an image is published exactly for a passing decision, only the stable core rejects, a quarantine has evidence, and the mechanical lane passes, rejects or retries |
| `Gate.AdmittedIff` | ditto_screener/gate.py:655-1018 | a submission is admitted if and only if executor, lease, download, contract, lead, build and health check do their part, nothing its modules met stands against it, there is no provenance warning, a deferral can be recorded with an audit and room for its evidence, and the image is exported and uploaded; it is deferred exactly after an exhausted review or lead |
| `Gate.ScreeningOutcomeIff` | ditto_screener/gate.py:592-1026 | a screening rejects if and only if it gets to an invalid artifact, a broken contract, a failed build, a failed health check or an image too large for a passing decision; it retries exactly for an executor, a lease, infrastructure, an exception or a lead, review or deferral that gives nothing to record; it quarantines exactly an elevated lead or an accused submission, and is inconclusive exactly where a lead or a module stays open |
| `Gate.RejectionsAreNamed` | ditto_screener/gate.py:680-1000 | each of the five rejections is signed by the stable core under its own code |
| `Gate.FailuresAreNamed` | ditto_screener/gate.py:655-1018 | each failure of the infrastructure around a screening is signed by the stable core under its own code |
| `Explained.JudgementIsExplained` | ditto_screener/gate.py:345-373 | a pass after a lead that gave up carries the note, the finding and the audit of the lead in front, and a provenance warning keeps the first fifteen items and adds its own |
| `Explained.StopIsExplained` | ditto_screener/policy.py:1075-1118 | a lead that does not let the image run leaves one item, under the gravest kind of its categories or the reason of its failure, with its finding |
| `Explained.LeadIsReviewedOnce` | ditto_screener/gate.py:736-910 | the review held of the lead is the one the policy sees; no second one changes a screening |
| `Gate.JudgesIffFits` | ditto_screener/gate.py:916-945 | with accounted reviews and no exception, there is a judgement if and only if a deferred pass does not carry all the evidence it may have |
| `Gate.DeferredPassMayOverflow` | ditto_screener/gate.py:921-937 | after any exhausted lead, two clean packs pass and the deferral of that pass overflows the evidence bound and becomes a retry |
| `Gate.AdvisedIsFit` | ditto_screener/gate.py:345-373 | the provenance warning never rejects, always fits the evidence bound, and leaves other outcomes alone |
| `Gate.PreexecutionIsFit` | ditto_screener/policy.py:1075-1118 | an unresolved lead is quarantined, deferred, retried or inconclusive, never rejected and never passed |
| `Worker.ScreenOne` | ditto_screener/worker.py:279-541 | a result is posted exactly when the platform lets the worker get to a decision and its payloads are valid, so neither guard before the assembly can fire; the signed message is the one the platform computes from the request |
| `Worker.PostIsAccepted` | packages/ditto-screening-protocol/ditto_screening_protocol/models.py:548-650 | every posted request passes all three validators, and only the stable core yields a deterministic reject |
| `Worker.RequestIsOfScreening` | ditto_screener/worker.py:460-541 | a screened item's request passes if and only if the submission is admitted, names then exactly the exported image and its upload, and has each other outcome exactly on its facts |
| `Worker.RequestIsExplained` | ditto_screener/worker.py:460-541 | the reason, the settings, and for a review its evidence, its finding and their digests are those of the decision |
| `Worker.RequestIsSigned` | ditto_screener/worker.py:460-541 | the signature binds each field of the request under its own name |
| `Worker.OutcomeIsFit` | ditto_screener/worker.py:312-363 | what the worker has to assemble a result from, on every path |
| `Worker.PostsAreBound` | ditto_screener/worker.py:460-541 | two posts with equal signed messages agree in every signed field and in the digest of the finding they carry |

## Left out

- Docker, subprocesses, tar and gzip coding, the filesystem, HTTP, heartbeats' host metrics, configuration parsing, logging, prompts and tool schemas: input and output around the modelled cores.
- SHA-256 and sr25519: arbitrary functions; nothing here assumes that digests differ, so digests bind payloads only as far as the hash does.
- Canonical digests of findings and audits: arbitrary functions of the record; the sorting and printing inside them is not modelled.
- Regular expressions, TOML, Rust tokenizing and the syntax trees: per-file and per-node facts that may take any value.
- Text-length bounds and code patterns of evidence, findings and audits: not modelled, except the 16-item bound on evidence, whose violation becomes a retry, and the audit's numeric bounds.
- `read_bytes_used` and `read_files_used`, the per-stage tool lists, providers, clearance path and dispositions of a review result: telemetry that no decision reads.
- The order of merged analyzed files: they are a map from path to digest.
- Archives with sparse or extended members, and names that are not UTF-8.
- Asyncio cancellation inside the image upload and the drain of a cancelled review task; a timeout is one of the outcomes a stage may have.
- Floating-point rounding: costs are reals, and a tenth of the cached tokens is rounded to the nearest integer with ties to even.
- CallGraph.Search: the counts of ambiguous and unresolved calls are modelled, the lists of their first 300 are not.
- The error code of an outage: the suffix that names the exception is not modelled.
- ProtoWire.ReadVarint: the disjoint bits that the source joins with a bitwise or are added.
- StringMask.SourceViews: Python's `splitlines` also breaks at a lone carriage return, a form feed and U+2028 among others, which the comment mask blanks; on a text that has one in a comment, the source's masked views have fewer lines than the raw one and shift. Only `'\n'` breaks a line here.
- StringMask.BlanksKeepLines: only `'\n'` breaks a line, as for the views.
- StringMask.SplitOfJoin: only `'\n'` breaks a line, as for the views.
- PortableImage.Convert: the lease deadline inside the conversion is not modelled; when it passes, the export is the gate's late outcome.
- Json.ObjectReadsBack: Dafny's characters are code points without surrogates; in Python two lone surrogates print like the one code point they encode.
- TensorRanges.TensorReport: a tensor's JSON object is a text that is equal exactly for equal objects.
- CommentMask.MaskComments: the text is the sequence of code points; lone surrogates are not modelled.
- RuntimePaths.ExplicitRuntimePaths: a Dockerfile's scripts are part of the seeds, and the standalone shell scripts are a fact about member names.
- ReviewFlow.SourceReviewAgent.Review: two artifacts or leads whose cache keys collide share entries; the certificate is the one of a run for the key.
- Clearance.FlowIsTold: flows with empty caches; with cached stages, `ReviewFlow.ClearsIffCertified` and `Clearance.CertificateIsSubmitted` say what a clearance rests on.
- Clearance.FlowGivesUp: flows with empty caches, as above.
- ReviewFlow.FlowIsBalanced: when a stage ends in an exception, the usage it spent is not in the reported usage, as in the source.
- SystemMetricsCollector, the settings client, the multipart upload, the readiness server and the starter provenance checks: easy members or plumbing.
