# Verified model of the archive importers

This project models the planning core of an importer that turns agent transcripts
into an append-only archive of content-identified nodes, and proves what that core
promises: nothing is lost or placed twice, node order is record order, a longer
transcript only appends, and the order in which files are read does not decide the
result, with the exact exceptions.

A node is `Node(previous, fact)`: identity by content is a structural constructor.
A provider's key (session, uuid) is a pair of ordered numbers, because planning only
compares keys. Sets and maps that the program keeps sorted are iterated in key
order; hash maps and hash sets, whose iteration order is arbitrary, are summed up by
relations that do not depend on any order.

## How the modules hang together

Claude Code planning (`src/archive_claude_code.rs`):

- `Base`, `Sorting`, `Bytes`, `Nodes`, `Graphs`, `Connectivity`: keys, sorting, bytes, node chains, record
  graphs, undirected connection.
- `Placements` is the placing state machine; `MessageRuns` reads off the record graph alone which
  message is open where; `PlacementOrder`, `PlacementSteps`, `PlacementBooks`, `PlacementEnter` and
  `PlacementRuns` prove the invariant of every step and the theorems about whole runs;
  `PlacementFollows` tells for every corpus which nodes a first node follows; `PlacementFacts` shows
  that facts never steer the machine; `Placers` is the loop as the program runs it, updating its maps
  in place, equal to the machine step by step.
- `Transcripts` is what an unbranched transcript should read like; `TranscriptRuns` shows that the
  machine does exactly that, and when output grows.
- `Dfs`, `Frontiers`, `DagChecks`, `TopoOrders`: contraction with an explicit stack and a shared
  memo, the cycle check, and the least topological order.
- `DisjointSets`, `Quotients`, `Aliases`: union-find by rank over arrays, the identity quotient, and
  the greedy choice of fork copies.
- `Observations`, `Plans`, `PlanGraph`, `PlanOrder`, `PlanResults`, `PlanEnds`, `PlanExamples`: the
  planning as a whole, and what it means in terms of the scans.
- `PreScans`, `ScanLines`, `SecondPass`, `Imports`: the pass that reads keys, the pass that must
  reproduce them, and the import of a directory made of both.

Codex rollouts (`src/archive_codex.rs`): `CodexChains`, `CodexKept` and `CodexProjectors` (the main
chain), `LineScans` (the two line scanners).

Smaller cores: `ContentOrders` and `CallSearches` (`src/archive_chatgpt.rs`), `TextIndexes` and
`TextRows` (`src/archive_bm25.rs`), `HtmlTags` and `GeminiCards` (`src/archive_gemini.rs`), `WikiFrontiers`
(`examples/latest_frontier_gate.rs`).

## Where the code does not do what one might expect

- The comparison of all copies at the end of planning (lines 833-849) skips classes that are held
  back. So a key seen saying two different things does not always make planning fail:
  `PlanResults.ConflictIffTwoFaced` gives the exact condition on the records, and
  `PlanExamples.OrderCanMatter` an input that passes.
- For the same reason the order of the scans can decide the outcome: in `PlanExamples.OrderCanMatter`
  the scans of three concrete files plan in one order and fail in another. Where planning succeeds in one
  order, `PlanOrder.OrderMattersOnlyThroughAliases` says exactly when another order comes to the same:
  when adding up the scans in both orders keeps the same fork copies. Where it fails in both,
  `PlanOrder.TwoFailures` says exactly when the errors are one. `PlanResults.OrderIsImmaterial`
  shows that all orders do as long as no fork copy and no fork origin is shown saying two things.
- At a branch end the program also asks whether every file that holds the end or a waiting record is
  finished (lines 807-812). That never decides: a branch end is asked about only if an unfinished file
  wrote it last, and that file holds it. `PlanEnds.HeldIffStillWritten` states what is held without it.
- A Codex rollout cut before its first event may keep answers that the whole rollout takes from the
  events instead. `CodexChains.LongerRolloutAppends` says for every cut exactly when growth appends;
  `CodexChains.LateEventsTakeBack` is a rollout where it does not.
- A Gemini card whose opening tag closes itself does not first balance at its end, though it may hold as
  many opened as closed divs. `GeminiCards.BalancedIffNotSelfClosing` says that exactly these cards are
  the exception, and `GeminiCards.SelfClosingCard` gives a page.

## Model

| member | source | states |
|---|---|---|
| Placers.Placer.Place | src/archive_claude_code.rs:505-520 | the placer's new maps are the old ones with the class chained after `previous`; the tail is its last node |
| Placers.Placer.Close | src/archive_claude_code.rs:524-530 | completing a message places all it deferred, in source order, each after the one before |
| Placers.Placer.CloseAll | src/archive_claude_code.rs:758-767 | a merge closes every branch in key order and joins their tails |
| Placers.CountChildren | src/archive_claude_code.rs:692-699 | the counts are the numbers of children in the class graph |
| Placers.TakeStates | src/archive_claude_code.rs:736-755 | every parent's state is found, moved out by the last child and cloned before |
| Placers.PlaceOne | src/archive_claude_code.rs:730-822 | one turn of the loop is exactly one transition of the machine |
| Placers.PlaceAll | src/archive_claude_code.rs:724-823 | the loop computes exactly the machine's run over the given order |
| PlacementSteps.PerceiveGood | src/archive_claude_code.rs:773-797 | perceiving any record keeps node order and leaves a tail that stands for every record so far |
| PlacementOrder.CloseGood | src/archive_claude_code.rs:524-530 | closing a message keeps node order, and its tail then stands for everything deferred |
| PlacementRuns.StepGood | src/archive_claude_code.rs:730-822 | one class placed keeps the whole invariant: order, books, live states, what is held |
| PlacementRuns.RunGood | src/archive_claude_code.rs:730-822 | from any point of a parents-first order no lookup fails and the invariant holds to the end |
| PlacementRuns.WholeRun | src/archive_claude_code.rs:684-823 | over every acyclic corpus in parents-first order the run goes through and keeps the invariant |
| PlacementRuns.PlacedOrHeld | src/archive_claude_code.rs:703-710 | every class is placed or held, never both, placed once; no live state is left over |
| PlacementRuns.HeldBack | src/archive_claude_code.rs:803-818 | held are exactly the records waiting for a message still open at the end of an unsettled branch |
| PlacementRuns.NodesFollowRecords | src/archive_claude_code.rs:684-710 | an ancestor's last node lies strictly below a descendant's first, unless the descendant is a later act of the message the ancestor was logged inside; then exactly the other way round |
| PlacementRuns.ActsAndPromptsPrecede | src/archive_claude_code.rs:776-797 | every act and every prompt precedes all that descends from it |
| PlacementRuns.NodesFollowNothingElse | src/archive_claude_code.rs:503-530 | each class is the chain of its facts, and its first node follows only last nodes of classes that come before it |
| PlacementFollows.FollowsExactly | src/archive_claude_code.rs:763-822 | on any corpus, branched or not, the first node of a record follows exactly one node per parent: the last node of the record that, of all that must come before it below that parent, comes after all the others |
| PlacementFollows.FollowsOne | src/archive_claude_code.rs:763-822 | so below a single parent it follows that one node and nothing else, also where the history forks |
| PlacementFacts.PlacedSame | src/archive_claude_code.rs:730-822 | which classes are placed and which are held does not depend on what they say |
| PlacementFacts.RunAgrees | src/archive_claude_code.rs:730-822 | two corpora that say the same in all placed classes run alike in every part |
| Transcripts.ClosedPermutes | src/archive_claude_code.rs:684-694 | reading a transcript moves records and neither drops nor repeats one |
| Transcripts.UnfinishedOnlyGrows | src/archive_claude_code.rs:690-694 | what an unfinished transcript emits is a prefix of what any extension emits unfinished |
| Transcripts.ClosedOnlyGrows | src/archive_claude_code.rs:3109-3174 | the closed output is a prefix of an extension's exactly when the next record outside does not continue the open message over something deferred |
| TranscriptRuns.LinearRun | src/archive_claude_code.rs:763-822 | over an unbranched corpus the machine emits, as one thread, the acts of each message and then what was logged inside it |
| TranscriptRuns.LongerTranscriptAppends | src/archive_claude_code.rs:3039-3106 | the nodes of an unfinished transcript are a prefix of those of every longer one |
| Transcripts.ClosedBeforeUnfinished | src/archive_claude_code.rs:3109-3174 | the closed output is a prefix of an extension's unfinished output exactly when nothing was deferred or a record outside follows that does not continue the open message |
| TranscriptRuns.FinishedTranscriptAppends | src/archive_claude_code.rs:3109-3174 | a longer transcript, finished or still live, appends to a finished one exactly when it leaves what that one flushed; then its nodes only append |
| Frontiers.SemanticFrontier | src/archive_claude_code.rs:1144-1227 | returns precisely the content-bearing or unknown keys reachable through contentless ones, fails exactly when a contentless cycle is reachable, and keeps the memo exact |
| Frontiers.Contract | src/archive_claude_code.rs:662-675 | every content key gets its exact frontier; fails exactly when a contentless cycle lies above a content key |
| Frontiers.ContractionKeepsAncestry | src/archive_claude_code.rs:662-675 | content keys are ancestors after contraction exactly when they were before |
| DagChecks.Visit | src/archive_claude_code.rs:1229-1272 | one search succeeds exactly when no cycle lies above its key |
| DagChecks.ValidateSemanticDag | src/archive_claude_code.rs:1229-1272 | the check succeeds exactly on acyclic class graphs |
| TopoOrders.LeastOrderComplete | src/archive_claude_code.rs:987-1029 | taking the least ready class yields every class, parents first, exactly on acyclic graphs |
| TopoOrders.LeastOrderLeast | src/archive_claude_code.rs:987-1029 | it is the lexicographically least of all topological orders |
| TopoOrders.TopologicalOrder | src/archive_claude_code.rs:987-1029 | the counting loop yields that order, and bails exactly on a cycle |
| DisjointSets.RankBounded | src/archive_claude_code.rs:1068-1105 | in every forest the operations build, a root of rank r has at least 2^r members, so ranks stay below 64 and a byte never overflows |
| DisjointSets.DisjointSet.constructor | src/archive_claude_code.rs:1074-1079 | at first every index is its own component |
| DisjointSets.DisjointSet.Find | src/archive_claude_code.rs:1081-1086 | terminates with the root, links the index to it, and moves nobody to another root |
| DisjointSets.DisjointSet.Union | src/archive_claude_code.rs:1088-1105 | afterwards roots are shared exactly by indices the edges so far, and this one, connect |
| Quotients.SameClass | src/archive_claude_code.rs:1031-1066 | two keys have one canonical key exactly when the aliases connect them |
| Quotients.QuotientUnique | src/archive_claude_code.rs:1031-1066 | there is only one canonical map for given keys and aliases |
| Quotients.AliasQuotient | src/archive_claude_code.rs:1031-1066 | maps every key to the least key of its component |
| Aliases.EqualAliases | src/archive_claude_code.rs:939-984 | keeps exactly the edges that, in sorted order, never put two payloads into one class |
| Aliases.GreedySound | src/archive_claude_code.rs:932-938 | kept edges never connect two keys that say different things |
| Aliases.DroppedDiffers | src/archive_claude_code.rs:932-938 | the ends of a dropped edge lie, also in the end, in components that say different things |
| Aliases.SortedEarlier | src/archive_claude_code.rs:962 | edges are taken by the session and uuid of the copy, then of the origin |
| Aliases.KeptByOrder | src/archive_claude_code.rs:932-984 | an edge is kept exactly if, beside the earlier edges kept, it joins no two keys that say different things |
| Aliases.EarlierCopyKept | src/archive_claude_code.rs:962-981 | of two copies of one absent origin that say different things the earlier one is kept |
| Observations.SumsMore | src/archive_claude_code.rs:556-569 | folding one more observation in adds exactly what it says |
| Observations.SumsAlike | src/archive_claude_code.rs:1119-1126 | what is observed of a key does not depend on the order of the observations, but for the order of shapes; flows merge to the least |
| Plans.Gather | src/archive_claude_code.rs:543-572 | the raw observations are the sums of all scans |
| Plans.Classify | src/archive_claude_code.rs:605-622 | every class holds the sum of what its keys say, whatever the order of the map |
| PlanGraph.GraphByScans | src/archive_claude_code.rs:587-660 | the contracted graph holds exactly the links the scans show, replayed positions only for what is no copy of its origin, but for links of mere telemetry under a record lying under it; content and the refused mixtures are those the scans show |
| PlanGraph.NoTelemetryMutual | src/archive_claude_code.rs:629-660 | after normalization no class of mere telemetry lies under a class that lies under it, and only links under such a class were removed |
| PlanGraph.BacklinkIsNoCycle | src/archive_claude_code.rs:632-642 | telemetry that lies only under records lying under it descends from nothing, where as written it would descend from itself |
| PlanGraph.AliasByScans | src/archive_claude_code.rs:573-586 | a fork copy counts as its origin exactly if a file shows the pair and the earlier copies that count allow it |
| PlanGraph.CorpusByScans | src/archive_claude_code.rs:605-622 | what is placed: the classes under their contracted parents, each with facts some file shows of it and the least flow told of it, an act before inside before a prompt |
| Plans.Build | src/archive_claude_code.rs:538-849 | each result and each error is the one its stage calls for: telemetry, contentless cycle, content cycle, conflicting copies, or the plan |
| PlanOrder.ClashesIffDivided | src/archive_claude_code.rs:831-849 | the comparison of copies fails exactly when a placed class carries two different payloads |
| PlanOrder.SameKeptSameOutcome | src/archive_claude_code.rs:538-849 | the same scans and kept aliases give the same error or the same plan in every part, in any order and with repetitions |
| PlanOrder.OrderMattersOnlyThroughAliases | src/archive_claude_code.rs:573-604 | where planning succeeds in one order of the scans, another order, with any repetitions, comes to the same exactly when both keep the same aliases |
| PlanOrder.ErrorIsFirstFault | src/archive_claude_code.rs:624-683 | a failed planning reports the first that is wrong with the classes: telemetry with content, a contentless cycle, a content class that descends from itself, or conflicting copies |
| PlanOrder.TwoFailures | src/archive_claude_code.rs:624-683 | where planning fails in two scan orders the errors are one exactly where the same is first wrong with the classes of both, and so wherever both keep the same aliases |
| PlanResults.OrderIsImmaterial | src/archive_claude_code.rs:538-849 | unless a fork copy or its origin is shown saying two things, scan order never changes the outcome |
| PlanResults.OneOutcome | src/archive_claude_code.rs:538-849 | the same, of what the planner returns: one set of scans, one result |
| PlanResults.ConflictIffTwoFaced | src/archive_claude_code.rs:831-849 | the comparison fails exactly when one raw key was itself seen saying two things and its class does not wait at the end of an unsettled branch |
| PlanResults.EveryRecordPlanned | src/archive_claude_code.rs:444-470 | every record with content has a class placed as the chain of its own facts, or held, never both |
| PlanResults.PlanFollowsRecords | src/archive_claude_code.rs:644-710 | nodes stand in record order also across contracted records |
| PlanEnds.PlannedFollows | src/archive_claude_code.rs:763-829 | the same of every plan: what the first node of each planned record follows |
| PlanEnds.HeldIffStillWritten | src/archive_claude_code.rs:703-723 | held are exactly the records waiting at a branch end that some unfinished file wrote on a later line than every other branch end it holds; whether other files are finished decides nothing more |
| PlanResults.FollowedExactly | src/archive_claude_code.rs:824-829 | followed are exactly the nodes some node names as previous |
| PlanExamples.FilesScan | src/archive_claude_code.rs:1364-1480 | the three files of the example are readable, and their scans are what reading them gives |
| PlanExamples.OrderCanMatter | src/archive_claude_code.rs:831-849 | three readable files that plan in one scan order, with a held key that says two things, and fail in another |
| PreScans.ChooseVersion | src/archive_claude_code.rs:1391-1406 | a payload met before keeps its key; a new one gets the uuid's own key if it is the first, a derived one else |
| PreScans.PrescanReader | src/archive_claude_code.rs:1364-1480 | the scan is exactly what the lines show under their keys; fails exactly on an unreadable line or a key that is both content and telemetry, and names whichever comes first |
| ScanLines.ShownExactly | src/archive_claude_code.rs:1422-1473 | the scan says of each key exactly what its lines show: content, telemetry, where the record and where its replay was put, what it says; and its flow by who wrote it, the assistant before the harness before the user |
| SecondPass.SameKeyAgain | src/archive_claude_code.rs:1419-1421 | the second pass looks up for every line the key the first pass gave it |
| SecondPass.OneKeyIffSameSaying | src/archive_claude_code.rs:1384-1406 | two content lines share a key exactly when they are of one uuid and say the same |
| SecondPass.OneSayingPerKey | src/archive_claude_code.rs:1384-1391 | within one file every key says one thing |
| SecondPass.ScanIsWell | src/archive_claude_code.rs:1422-1477 | what planning relies on: content, flow and shapes go together, and last lines differ |
| SecondPass.ProjectRecord | src/archive_claude_code.rs:2025-2109 | succeeds exactly when the plan lists the chain the record's facts make, and then returns it |
| SecondPass.ProjectFile | src/archive_claude_code.rs:1515-1549 | succeeds exactly when every line can be realised |
| SecondPass.SecondPassRealises | src/archive_claude_code.rs:2053-2109 | under a plan of its own scan every line is realised, by exactly the planned chain or by nothing: the absence, range and difference errors cannot occur |
| SecondPass.EveryNodeEmitted | src/archive_claude_code.rs:1515-1549 | every planned chain belongs to a content key of some file |
| Imports.ProjectDirectory | src/archive_claude_code.rs:1274-1336 | an import fails only on a file that cannot be scanned or on a plan that cannot be made; else every line of every file makes what the plan lists for it, and every planned chain is made by some line |
| CodexChains.KeptAppends | src/archive_codex.rs:786-834 | where the cut has response items if the whole has, what it keeps is a prefix exactly when no prompt is answered only after something produced followed it |
| CodexChains.KeptAppendsBeforeResponses | src/archive_codex.rs:786-834 | where response items come only after the cut, exactly when every prompt of the cut stays unanswered and is not held back by the whole |
| CodexChains.AppendsBeforeEvents | src/archive_codex.rs:951-1010 | where events come only after the cut, exactly when no response item of the cut says what events say |
| CodexChains.LongerRolloutAppends | src/archive_codex.rs:774-834 | at every cut, the live chain is a prefix of the longer rollout's, record by record with all it says, exactly under the condition of its case |
| CodexChains.LongerRolloutAppendsNodes | src/archive_codex.rs:2600-2668 | then the nodes of the cut are a prefix of the nodes of the whole |
| CodexChains.LongerRolloutAppendsNodesIff | src/archive_codex.rs:2600-2668 | where no fact is said twice, the nodes of the cut are a prefix of the nodes of the whole exactly under the same condition |
| CodexChains.LateEventsTakeBack | src/archive_codex.rs:951-955 | a concrete rollout with a header whose first event comes after an answer takes the answer back |
| CodexKept.KeptExactly | src/archive_codex.rs:774-834 | the main chain keeps a line with content exactly if it is no prompt whose every text some response item shows and lies before the live tail; kept lines say what they say in the file, in its order |
| CodexProjectors.Projector.Push | src/archive_codex.rs:746-772 | a record with content and its empty prompt slot are appended; one without is counted as skipped |
| CodexProjectors.Projector.ProjectRecord | src/archive_codex.rs:622-718 | reading one more line leaves exactly the records, prompts and answers of the lines read, and counts the lines without content |
| CodexProjectors.Projector.FindHeld | src/archive_codex.rs:790-812 | finds the first prompt that may yet turn out mirrored, if the rollout is live and has response items |
| CodexProjectors.Projector.Chain | src/archive_codex.rs:786-834 | drains the records into the kept chain, each naming the one before it, and counts what was held back and dropped |
| CodexProjectors.ProjectRollout | src/archive_codex.rs:276-329 | the whole rollout's chain is the kept chain of its lines, linked, and says what the main chain says; every line is on the chain, held back or counted as skipped |
| LineScans.Reassembled | src/archive_codex.rs:556-582 | lines, newlines and trailing bytes reassemble the file, and no line or trailing part holds a newline |
| LineScans.OneSplit | src/archive_codex.rs:556-582 | no other cut into such lines reassembles it |
| LineScans.TrimsBothEnds | src/archive_codex.rs:1609-1617 | trimming strips whitespace, all of it and nothing else, from the two ends |
| LineScans.OneTrim | src/archive_codex.rs:1609-1617 | there is one way to do so |
| LineScans.TrimAsciiWhitespace | src/archive_codex.rs:1609-1617 | the two loops compute it; nothing is left exactly of lines that are all whitespace |
| LineScans.DeliveredExactly | src/archive_codex.rs:540-546 | exactly the lines that are not blank are visited, under their numbers, up to the first refusal |
| LineScans.VisitsExactly | src/archive_codex.rs:528-582 | a scan visits, in order and under its number, every complete line that holds a byte other than tab, newline, form feed, return or space, and no other line, up to the first refusal; the record count is the number of visits |
| LineScans.ScanPrefix | src/archive_codex.rs:499-554 | the buffered scanner delivers the file's scan and digests all bytes observed |
| LineScans.ScannersAgree | src/archive_codex.rs:556-582 | two scans of one file deliver the same visits, complete length and record count |
| LineScans.ScanFrozenPrefix | src/archive_codex.rs:559-582 | the newline-walking scanner delivers the same scan |
| ContentOrders.KeepOnce | src/archive_chatgpt.rs:125-141 | of equal keys the first stays and the nodes of the others leave the counts, which never underflow |
| ContentOrders.NodesCounted | src/archive_chatgpt.rs:129-134 | the nodes taken off are as many as there are fragments with a record |
| ContentOrders.EmitInContentOrder | src/archive_chatgpt.rs:117-147 | every content is emitted once, in key order, and both counts fall to the nodes emitted |
| ContentOrders.EmissionIsCanonical | src/archive_chatgpt.rs:110-116 | what is emitted depends only on which conversations there are, not on shards, order or repeats |
| CallSearches.FewSteps | src/archive_chatgpt.rs:252-264 | a walk that reaches a call passes fewer nodes than there are |
| CallSearches.AnsweredCall | src/archive_chatgpt.rs:252-264 | on any parent map the bounded walk finds the nearest call whenever one can be reached, and otherwise nothing |
| TextIndexes.CountTerms | src/archive_bm25.rs:222-231 | counts every term exactly; fails exactly when a count would pass 32 bits |
| TextIndexes.ReadTexts | src/archive_bm25.rs:182-211 | the first read that fails or is malformed decides; only then a missing text, the first by handle |
| TextIndexes.DeriveForValidation | src/archive_bm25.rs:172-247 | ready, pending, rejected or failed, each exactly for its reason |
| TextIndexes.OneOutcome | src/archive_bm25.rs:172-247 | a member has one outcome |
| TextRows.OutcomeByRows | src/archive_bm25.rs:172-270 | every outcome read off the payload rows: the first unreadable or missing text, the reasons to refuse, or an index holding exactly the named texts with exact counts |
| TextRows.OtherRowsNeverMatter | src/archive_bm25.rs:249-270 | canonical members with the same payload rows come to the same |
| TextRows.OneCanonicalMember | src/archive_bm25.rs:249-256 | a set of rows makes one canonical member |
| TextRows.CanonicalMember | src/archive_bm25.rs:245-256 | and every set of rows makes one |
| TextRows.RowsAsWritten | src/archive_bm25.rs:245-256 | rows are ordered as they are written, by entity, attribute and value, and of two different rows one is less |
| TextIndexes.MembersMerge | src/archive_bm25.rs:82-87 | merging ready members by the larger counts is the image of all their handles |
| TextRows.MergeIsJoin | src/archive_bm25.rs:12-16 | joining two indexes is the pointwise maximum, the least index holding both |
| TextIndexes.DerivationIsHomomorphic | src/archive_bm25.rs:82-87 | members that cover a whole, overlapping and in any order, merge to the whole's own image, which is ready exactly if its carrier can be built |
| TextIndexes.ReadyIffMembersReady | src/archive_bm25.rs:172-247 | a whole is ready exactly when its carrier can be built and all texts of all members that cover it can be indexed; likewise each member |
| HtmlTags.NextTag | src/archive_gemini.rs:869-936 | finds the first tag or comment and reads its end outside quotes, its name and its slashes, or says what is unterminated |
| HtmlTags.NextTagAhead | src/archive_gemini.rs:869-936 | a found tag lies ahead and is not empty, so scanning ends |
| HtmlTags.OneNextTag | src/archive_gemini.rs:869-936 | the page alone determines the next tag |
| GeminiCards.ScanOuterCards | src/archive_gemini.rs:464-501 | terminates with the cards the page's tags call for, or with the error they call for |
| GeminiCards.OneCut | src/archive_gemini.rs:464-501 | a page is cut into cards in one way |
| GeminiCards.NamesDiv | src/archive_gemini.rs:942-944 | a tag counts exactly if its name is one of the eight spellings of div |
| GeminiCards.BalancedIffNotSelfClosing | src/archive_gemini.rs:477-494 | a card first balances where it ends exactly if its opening tag is not self-closing |
| GeminiCards.SelfClosingCard | src/archive_gemini.rs:477-494 | a concrete page with the card classes on a self-closing opening tag: its one card is not open throughout, and yet holds equally many opens and closes |
| GeminiCards.CardsOfPage | src/archive_gemini.rs:464-501 | cards are disjoint and in page order; each whose opening tag is not self-closing ends exactly where its divs first balance; no marked div is left outside |
| WikiFrontiers.Root | examples/latest_frontier_gate.rs:58-70 | terminates with the least id of the class, and linking what was passed moves nobody |
| WikiFrontiers.GroupsJoin | examples/latest_frontier_gate.rs:84-94 | putting the larger root below the smaller joins exactly the two components |
| WikiFrontiers.JoinAll | examples/latest_frontier_gate.rs:79-95 | roots are shared exactly by revisions the supersedes edges connect |
| WikiFrontiers.WikiFrontiersByHand | examples/latest_frontier_gate.rs:76-119 | one sorted frontier for every component, each id as often as it is recorded, and nothing else |
| WikiFrontiers.OneFrontier | examples/latest_frontier_gate.rs:101-118 | a component has one frontier: its ids in order, each as often as it is recorded |
| WikiFrontiers.ScanIsSubtraction | examples/latest_frontier_gate.rs:36-41 | the frontiers together are exactly the revisions no record supersedes |
| WikiFrontiers.EveryComponentIsCurrent | examples/latest_frontier_gate.rs:72-119 | without supersedes cycles every component has a current revision |

## Left out

- Tool correlators, `responds`, and unresolved tool results (src/archive_claude_code.rs:851-917): what answers what is read from whichever shape comes first; a shape's links are one opaque number here, and the correlator conflict errors are not modelled.
- Plans.Build: asks that the keys named by all scans number at most 2^64 - 1, the machine's index range; beyond it no such program could hold them. The key an error message names is not modelled, because it depends on hash order.
- PlanResults.OrderIsImmaterial: one direction; the exact condition for two given orders is that of `PlanOrder.OrderMattersOnlyThroughAliases`.
- SecondPass.OneKeyIffSameSaying: takes derived version keys as injective and as no provider's uuid; the hash behind them is not modelled.
- SecondPass.SecondPassRealises: the second pass reads the bytes that were pre-scanned; the digest comparison that guards this is not modelled, nor are receipts, annotations and counters.
- Imports.ProjectDirectory: asks the same index range as `Plans.Build`; files are scanned one after the other, and the prompt history file is not modelled.
- PreScans.PrescanReader: lines arrive parsed, with their facts; JSON, timestamps, media and sidecar files are not modelled.
- CodexChains.LongerRolloutAppendsNodesIff: asks that no fact is said twice in the rollout; otherwise nodes of different records may by accident hold the same facts, and only `LongerRolloutAppendsNodes` is stated. Cuts before the session header, which name no session, are refused by the program and not modelled.
- Codex fork replay (`observe_replay`), turn contexts, models and timestamps: they only annotate receipts.
- LineScans.ScanPrefix: line and byte counters are unbounded; reading errors other than a shrunken file are not modelled. A visitor is a function that accepts or refuses a line.
- GeminiCards.CardsOfPage: whether a tag's class attribute names a card is a parameter, so the attribute scanner is not modelled; neither are cell rendering, duplicate-card anchors and the inner-cell search.
- ContentOrders.EmissionIsCanonical: equal content keys are taken to carry equal fragments; the key's hash is not modelled. Emission does not fail.
- ChatGPT export file resolution, node locators and message parts: field mapping.
- TextIndexes.DerivationIsHomomorphic: the portable index carrier is a map from documents to term counts and its join the pointwise larger count; whether it can be built at all is a function of the index. Storage reads and the tokenizer are functions of what they are asked.
- WikiFrontiers.ScanIsSubtraction: records of one id are taken to supersede the same ids, as the catalogue reads them from one entity.
- Growth of branched histories: a record that gains a second child closes its message at the fork, which moves nodes already placed, so growth is stated for unbranched transcripts only.
- File discovery, modification times (a file is just finished or not), storage, signing, viewers, other importers: input and output, or field mapping.
