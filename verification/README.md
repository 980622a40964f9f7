# ace-web, modelled

ace-web runs and analyses Claude CLI sessions. This project models the parts of
it that make exact claims, and proves the claims for every input, every run or
every reachable state.

**Transcript accounting** (`Transcript`, `Matching`, `Attribution`, `WallTime`,
`Cost`, `CostAggregator`, `CostLaws`, `Breakdown`; `Structure`, `Tree`, `TreeSteps`,
`TreeResults`, `TreeEnd`, `Subtrees`, `TreeRows`, `TreeLists`, `TreeBuilder`,
`TreeReport`, `TreeTotals`, `TreeLaws`, `TreeCalls`).
A transcript is projected to a stream of events. One fold makes a cost breakdown
by phase, another a tree of skills, tools and narration. Each fold is a class
whose fields are the source's variables, and each is proved against rules read
off the stream alone: which dispatches are in flight, whose every turn is, which
phase is current, which finished skill absorbs later work, under which skill a
row is listed. `CostLaws` and `TreeLaws` say what the rules come to in terms of the
stream alone, without their running cursors. From the rules follow the main results: every dispatch and every
tool call has exactly one row, in the right list, in stream order, parallel calls
grouped and failed ones marked; every token is counted exactly once; and wall
times are measures of unions.

**Transcript store** (`Lines`, `TranscriptStore`). A session's local row, its
composed canopy row and its stored cost, under any sequence of captures,
dispatches, reads and recomputes: what the rows hold is stated against the
sequence of events. The stored cost is the report of the fold above.

**Session pool** (`SessionPool`, `PoolSafety`, `PoolLaws`,
`PoolTracking`, `LostProcesses`). Turns, LRU admissions, the idle
reaper, failures and cancellations as tasks that interleave at their awaits.
Getting a session and acquiring its lock are separate steps, and so are the
steps of the eviction body.

**Refresh lock** (`NovaRefresh`). Any number of calls of `get_fresh_token`
share one rotating refresh token (section 6 of RFC 6749) and one Redis key.

**Decision lineage** (`Walks`, `Lineage`, `Candidates`, `Origins`, `CloneHop`,
`OriginLaws`).
Matching one decision across a chain of runs, deciding where its value comes
from, and seeing through clones.

**Smaller pieces.** Rewriting ids in a document (`IdTokens`, `DocIds`), merging
overrides (`Overrides`), parsing turns (`TurnParser`), the two-tier validation
cache (`ValidationCache`) and the rate limiter (`RateLimit`).

Conventions. Token counts are naturals and timestamps are microseconds, both
exact. JSON, Drive, Redis, the ORM, subprocesses and clocks are parameters,
datatypes or single actions. The index `at` of the event that a frame, row or
turn comes from is a label of the model: no branch of the modelled code reads
it. Where the code and its comments differ, the code is modelled. The comment on
`_evict_session` (apps/common/cli_backend.py:949-957) says that popping a session
first leaves no live subprocess that nothing tracks; `PoolTracking.UntrackedExactly`
says which actions lose one, and `LostProcesses` has a run for each. The documented
saving of overrides in any grouping holds under the condition of
`Overrides.WhenMergeActs`.

In the table below, rows that begin with **Main.** are the results; the others
lead to them or tie a method of the source to its rules.

## Model

| member | source | states |
|---|---|---|
| Transcript.ProjectLine | apps/ingest/parser.py:98-178 | One line is projected to its turn, if it has text or usage, then its tool uses in order, block by block; a user line to its tool results, block by block; each event carries the line's time, uuid, parent and side. |
| Transcript.ExtractCostEvents | apps/ingest/parser.py:76-178 | The loop over lines yields the concatenation of the lines' events, in file order. |
| Transcript.EventsOfConcat | apps/ingest/parser.py:76-178 | **Main.** Projection is a homomorphism: the events of two transcripts put together are their events put together. |
| Transcript.ParsedTurnsLead | apps/ingest/parser.py:117-138 | If lines have distinct uuids, every assistant turn is the first event under its uuid and only tool uses follow it. |
| Matching.OpenIsScan | apps/ingest/cost_aggregator.py:180-188 | **Main.** A dispatch is in the open list exactly while no result has closed it, and its depth is the number of later open frames with its id: closing works by id, whatever order frames nest in. |
| Matching.ClosesOne | apps/ingest/structure_aggregator.py:521-529 | A result that matches takes exactly one dispatch out of flight, the newest with that id, and is the event that closes it. |
| Matching.LastWithIs | apps/ingest/structure_aggregator.py:523-527 | The backward search finds the newest open frame with the id, and only that one. |
| Attribution.ShareUnion | apps/ingest/cost_aggregator.py:206-262 | Usage held by disjoint sets of owners adds up, counter by counter. |
| Attribution.AdoptedShare | apps/ingest/cost_aggregator.py:160-177 | Of all earlier turns, a dispatch that opens owns exactly the one whose usage is parked under its uuid. |
| Attribution.PendingDrained | apps/ingest/cost_aggregator.py:170-171 | Taking an entry out of the dictionary of parked usage keeps it exact for every uuid. |
| Attribution.PendingParked | apps/ingest/cost_aggregator.py:222-227 | Parking a turn keeps the dictionary exact, an older entry of the same uuid being overwritten. |
| Attribution.EveryTurnOwned | apps/ingest/cost_aggregator.py:125-137 | When turns lead, every assistant turn is owned by some frame, phase or the orchestration row. |
| Attribution.NothingLost | apps/ingest/cost_aggregator.py:222-227 | **Main.** When turns lead, no usage stays parked: the share of nobody is zero. |
| Attribution.TotalIsReported | apps/ingest/_common.py:12-27 | Each counter of the total is the sum of what the turns report of it, a missing counter counting as zero. |
| Registry.LookupLaw | apps/ingest/_common.py:66-79 | A name the registry has as it stands is looked up as it stands; any other by what follows its first colon; a bare name it does not have is not found. |
| WallTime.UnionSeconds | apps/ingest/_common.py:37-63 | **Main.** The sort-and-sweep loop computes the rounded measure of the union of the valid intervals. |
| WallTime.Sweep | apps/ingest/_common.py:53-62 | The sweep over sorted intervals computes the measure of their union exactly. |
| WallTime.UnionMonotone | apps/ingest/_common.py:37-63 | More intervals never cover less, before and after rounding. |
| WallTime.UnionOrderIndependent | apps/ingest/_common.py:37-63 | Order and repetition of the intervals do not matter. |
| WallTime.UnionWithin | apps/ingest/_common.py:37-63 | Intervals inside a span cover no more than the span. |
| WallTime.RoundMonotone | apps/ingest/_common.py:34-34 | Rounding half to even is monotone. |
| WallTime.RoundsToNearest | apps/ingest/_common.py:30-34 | A duration is rounded to the nearest whole second, and from halfway to the even one. |
| WallTime.SessionWall | apps/ingest/_common.py:30-34 | A session's wall is the rounded measure of the span from its first event to its last. |
| CostAggregator.Aggregator.Step | apps/ingest/cost_aggregator.py:139-262 | One iteration keeps every accumulator equal to what the attribution rules give it of the events so far: open segments, closed lists, parked usage, phase and global orchestration, totals and session clock. |
| CostAggregator.Aggregator.OpenSegment | apps/ingest/cost_aggregator.py:147-178 | A dispatch opens a segment that starts with the usage parked for it, and moves the phase cursor, wherever it stands, if the skill is registered. |
| CostAggregator.Aggregator.CloseSegment | apps/ingest/cost_aggregator.py:180-204 | A matching result closes the right segment and lists it under the phase of its skill or the current one. |
| CostAggregator.Aggregator.ResolveSidechain | apps/ingest/cost_aggregator.py:55-78 | **Main.** The parent-uuid walk, which stops on cycles, finds the open segment held by the nearest ancestor message, and finds none exactly when no ancestor holds one. |
| CostAggregator.Aggregator.Turn | apps/ingest/cost_aggregator.py:206-262 | A turn is parked, or absorbed by its segment, its phase or the global orchestration row, as its owner says. |
| CostAggregator.Aggregator.Finish | apps/ingest/cost_aggregator.py:264-278 | Segments still open at the end are each listed once, as interrupted. |
| CostLaws.FirstResultCloses | apps/ingest/cost_aggregator.py:180-188 | The first result that names a dispatch closes it, unless a dispatch of the same id came between. |
| CostLaws.NeverNamed | apps/ingest/cost_aggregator.py:264-269 | A dispatch that no later result names is never closed. |
| CostLaws.OpenUntilClosed | apps/ingest/cost_aggregator.py:147-188 | A dispatch is open from its own event to the result that closes it. |
| CostLaws.UnclaimedTurn | apps/ingest/cost_aggregator.py:239-262 | **Main.** A turn that no segment claims is billed to the phase of the last registered skill dispatched before it, and to the global orchestration if none was. |
| CostLaws.ListedUnderPhase | apps/ingest/cost_aggregator.py:147-204 | **Main.** A registered skill is listed under its own phase; another under the phase of the last registered skill dispatched before it ended, and under "_other" if none was; its name is the input's skill, else its subagent type. |
| CostLaws.NewestSegmentOwns | apps/ingest/cost_aggregator.py:228-238 | A main-line turn whose message dispatches nothing belongs to the newest segment in flight. |
| CostLaws.NoSegmentOwns | apps/ingest/cost_aggregator.py:228-262 | With nothing in flight, no segment owns such a turn. |
| CostLaws.DispatchTurn | apps/ingest/cost_aggregator.py:131-177 | A main-line turn belongs to the dispatch that its own message goes on to make, whatever is in flight. |
| CostLaws.SidechainTurn | apps/ingest/cost_aggregator.py:55-78 | **Main.** A sidechain turn belongs to an open dispatch of its parent message, or of the nearest ancestor message that has one. |
| CostLaws.ParentMessage | apps/ingest/cost_aggregator.py:119-123 | The last event under a uuid says what the parent message is. |
| CostLaws.SegmentEnds | apps/ingest/cost_aggregator.py:180-238 | A segment ends with the timed result that closes it; else with its last timed turn before that; else where it began. |
| CostLaws.ThinkingSpan | apps/ingest/cost_aggregator.py:239-262 | The orchestrator's span goes from its first timed turn to its last. |
| Breakdown.BuildSkillRow | apps/ingest/cost_aggregator.py:304-336 | A skill's row holds all its invocations, their summed usage and the union of their times. |
| Breakdown.BuildPhaseRow | apps/ingest/cost_aggregator.py:338-366 | A phase's row lists the skills it is given, one for each skill of the phase; its counters are the usage of its skills and its orchestrator turns, and the sum over its rows; its wall is the union of the phase's spans, and the skill union plus the orchestration residual, exactly. |
| Breakdown.BuildOrchestrationRow | apps/ingest/cost_aggregator.py:368-379 | The global orchestration wall is what its span adds to the union of all skill spans, and is within the session wall. |
| Breakdown.Aggregate | apps/ingest/cost_aggregator.py:81-446 | **Main.** The whole fold: a phase has a row exactly if it is in use, each phase row lists every skill of the phase once, its counters and its wall are those of its rows and its spans, and no phase wall or global orchestration wall exceeds the session wall. Whose a turn is, under which phase a skill stands and how long a segment lasts are pinned by CostLaws. |
| Breakdown.EveryDispatchOnce | apps/ingest/cost_aggregator.py:264-338 | **Main.** Every dispatch is listed in one skill row, under its own phase and skill, and in no other. |
| Breakdown.PhaseWallIs | apps/ingest/cost_aggregator.py:287-302 | **Main.** A phase's wall is the rounded measure of the spans of all its dispatches together with the orchestrator's span if it used tokens, whatever the order of rows. |
| Breakdown.WithinSession | apps/ingest/cost_aggregator.py:364-379 | The rounded union of spans observed in the stream is within the session wall. |
| Breakdown.NothingCountedTwice | apps/ingest/cost_aggregator.py:389-418 | **Main.** For every stream, phase counters, global orchestration and the turns nobody claimed add up to the totals. |
| Breakdown.NothingUncounted | apps/ingest/cost_aggregator.py:389-418 | **Main.** For transcripts whose lines have distinct uuids, the rows add up to the totals exactly. |
| Structure.ClosedStaysClosed | apps/ingest/structure_aggregator.py:521-567 | A skill that is neither in flight nor active never becomes so again. |
| Structure.Settled | apps/ingest/structure_aggregator.py:308-396 | Such a skill gains no more usage, so its row is final. |
| Tree.AttachLabels | apps/ingest/structure_aggregator.py:193-256 | Attaching a tool, with in-place parallel grouping, loses and duplicates no row. |
| Tree.AttachOk | apps/ingest/structure_aggregator.py:193-256 | Grouping only ever joins tools that one assistant message fired, and keeps every row under its owner. That parallel tools are in fact joined is TreeRows.AttachClusters. |
| Tree.AttachSkillTokens | apps/ingest/structure_aggregator.py:193-256 | Grouping changes no skill's tokens. |
| TreeSteps.TurnInFrame | apps/ingest/structure_aggregator.py:316-323 | A turn inside a frame goes to the innermost one; all other books stay right. |
| TreeSteps.TurnParked | apps/ingest/structure_aggregator.py:324-327 | A top-level dispatch turn is parked for the frame it opens. |
| TreeSteps.TurnInActive | apps/ingest/structure_aggregator.py:328-360 | A top-level turn under a finished top-level skill is absorbed by it, with a narration row if it says anything. |
| TreeSteps.TurnInline | apps/ingest/structure_aggregator.py:361-395 | A top-level turn no skill claims goes to the residual of its phase. |
| TreeSteps.Dispatches | apps/ingest/structure_aggregator.py:402-453 | A dispatch opens a frame with its phase and parked usage; at top level it first flushes the active skill. |
| TreeSteps.ToolInFrame | apps/ingest/structure_aggregator.py:504-505 | A tool call in flight is listed under the innermost frame. |
| TreeSteps.ToolInActive | apps/ingest/structure_aggregator.py:506-514 | A top-level tool call is listed under the active skill. |
| TreeSteps.ToolInBucket | apps/ingest/structure_aggregator.py:463-518 | Otherwise it is listed in the current phase, a marker of another phase flushing the active skill first. |
| TreeSteps.FlushesNow | apps/ingest/structure_aggregator.py:267-299 | Flushing lists the active skill, whose row is then final, in the bucket of its phase. |
| TreeResults.ClosesNested | apps/ingest/structure_aggregator.py:528-552 | A closed frame is listed under the newest frame still in flight, which rolls up its tokens. |
| TreeResults.ClosesTop | apps/ingest/structure_aggregator.py:553-566 | The last frame to close becomes the active skill; no skill was active before: open frames and an active skill never coexist. |
| TreeResults.FindTool | apps/ingest/structure_aggregator.py:52-63 | The search finds the latest tool row with the id, groups included, and fails only if there is none. |
| TreeResults.MarksInFrame | apps/ingest/structure_aggregator.py:573-588 | An error result of a plain tool call marks one row and changes nothing else; likewise for the other two places. |
| TreeRows.AttachClusters | apps/ingest/structure_aggregator.py:218-245 | Attaching a call keeps every two calls that follow each other in the stream, in one message, next to each other in one group. |
| TreeRows.KidsGainTool | apps/ingest/structure_aggregator.py:193-256 | A call that lands in a list joins it behind all others: the list holds exactly the calls that landed there, in stream order, parallel ones grouped, failed ones marked. |
| TreeRows.KidsGainTurn | apps/ingest/structure_aggregator.py:345-360 | A turn that says something under the active skill gets a row behind all others, and a list holds exactly the turns said there. |
| TreeRows.KidsGainResult | apps/ingest/structure_aggregator.py:569-586 | An error result marks the latest call of its id in the list where work lands now, and no other; so a call is marked exactly if some later error result found it. |
| TreeRows.RowsSettled | apps/ingest/structure_aggregator.py:521-567 | The list of a skill that is neither in flight nor active gains nothing more. |
| TreeLists.NeatDispatch | apps/ingest/structure_aggregator.py:402-453 | A dispatch flushes the active skill into its bucket behind everything listed there, and opens an empty list. |
| TreeLists.NeatToolInBucket | apps/ingest/structure_aggregator.py:463-518 | A top-level call under no skill joins the list of its phase, behind the skill that a phase marker flushes. |
| TreeLists.NeatClosesNested | apps/ingest/structure_aggregator.py:528-552 | A closed frame's row goes behind everything in the list of the newest remaining frame. |
| TreeLists.NeatClosesTop | apps/ingest/structure_aggregator.py:553-566 | The list of the last frame to close goes on as the active skill's, with nothing left to join. |
| TreeLists.NeatEndNested | apps/ingest/structure_aggregator.py:591-609 | A frame never closed goes behind everything in the list of the one below it. |
| TreeLaws.TasksAre | apps/ingest/structure_aggregator.py:120-144 | A task number stands for a phase exactly if the task created as the n-th has a subject that names a skill of it. |
| TreeLaws.PhaseLaw | apps/ingest/structure_aggregator.py:416-475 | **Main.** The phase is the one set last, by a registered skill dispatched at top level or by a task of its marked in progress there; before any, there is none. |
| TreeLaws.ActiveLaw | apps/ingest/structure_aggregator.py:258-299 | **Main.** Later top-level work goes to the skill that closed last with nothing else in flight, until a dispatch or the start of another phase. |
| TreeLaws.ToolLaw | apps/ingest/structure_aggregator.py:504-518 | **Main.** A tool call is listed under the innermost skill in flight; at top level under the skill that absorbs it; else in the phase, counting the phase it marks itself, or in the orchestration. |
| TreeLaws.TurnLaw | apps/ingest/structure_aggregator.py:315-367 | A turn in flight is the innermost skill's; a top-level one whose message makes no dispatch is the skill's that absorbs it, else the phase's. |
| TreeLaws.DispatchTurnLaw | apps/ingest/structure_aggregator.py:107-111 | A top-level turn whose message goes on to make a dispatch is that skill's. |
| TreeLaws.SaysLaw | apps/ingest/structure_aggregator.py:345-383 | Narration rows are the top-level turns with text whose message makes no dispatch. |
| TreeLaws.ErrorLaw | apps/ingest/structure_aggregator.py:569-581 | An error result that names no skill in flight is looked up where work lands at that moment. |
| TreeLaws.ParentLaw | apps/ingest/structure_aggregator.py:550-611 | A skill that ends is listed under the innermost one then in flight; one that never ends, under the last earlier one that never does. |
| TreeLaws.SkillPhaseLaw | apps/ingest/structure_aggregator.py:416-431 | A skill's phase is its own in the registry, else that of the skill it is dispatched in, else the current one, else "_other". |
| TreeLaws.HomeLaw | apps/ingest/structure_aggregator.py:282-299 | A top-level skill stands in the row of its phase; a finished one whose phase has no name, in the orchestration's. |
| TreeBuilder.ScanTasks | apps/ingest/structure_aggregator.py:107-144 | The pre-scan numbers task creations in order and maps each number to the phase its subject names. |
| TreeBuilder.Builder.Turn | apps/ingest/structure_aggregator.py:308-396 | The branch of the loop for turns, against the rules. |
| TreeBuilder.Builder.Dispatch | apps/ingest/structure_aggregator.py:398-453 | The branch for dispatches. |
| TreeBuilder.Builder.Tool | apps/ingest/structure_aggregator.py:455-519 | The branch for tool calls and phase markers. |
| TreeBuilder.Builder.Result | apps/ingest/structure_aggregator.py:521-567 | The branch for results that close frames. |
| TreeBuilder.Builder.Mark | apps/ingest/structure_aggregator.py:573-589 | The branch for results of plain tool calls. |
| TreeBuilder.Builder.Step | apps/ingest/structure_aggregator.py:301-589 | One iteration keeps every variable equal to what the rules say of the events so far. |
| TreeBuilder.Builder.Finish | apps/ingest/structure_aggregator.py:591-614 | Frames never closed are listed as incomplete, each under the one below it, and the active skill is flushed. |
| TreeReport.Inject | apps/ingest/structure_aggregator.py:627-667 | Tools and groups move into the "(direct turns)" row, present unless the orchestrator used nothing, had nothing unpriced and called nothing. |
| TreeReport.RollTotals | apps/ingest/structure_aggregator.py:746-768 | Phase counters are the sum over skill rows; the phase is incomplete exactly if a skill row is. Wall and cost are left out. |
| TreeReport.Aggregate | apps/ingest/structure_aggregator.py:86-700 | **Main.** The whole fold: every phase row is right (its counters are the usage of all its skills and its own turns and the sum over its rows, it has a "(direct turns)" row if its own turns used anything, it is incomplete exactly if some top-level skill was never closed); the rows list every call once; skills stand in the order they closed; and every list holds exactly the calls and narration that landed in it, in stream order, parallel calls grouped and failed ones marked. |
| TreeReport.DirectRowIs | apps/ingest/structure_aggregator.py:641-667 | The "(direct turns)" row is there if the orchestrator used tokens in the phase or tokens of unknown price; otherwise only to hold a tool call. |
| TreeReport.PhaseRowsOk | apps/ingest/structure_aggregator.py:627-667 | Splitting a phase's list keeps its order: skills as they closed, and in the direct row first what the orchestrator said, then what it called, grouped and marked as before. |
| TreeReport.PhaseTokens | apps/ingest/structure_aggregator.py:746-768 | A phase's counters are the share of the owners whose top-level skill belongs to it, plus its own turns. |
| Subtrees.SubtreeTokens | apps/ingest/structure_aggregator.py:703-716 | **Main.** A skill row's counters are the usage of its own turns and of all skills below it, each turn once. |
| Subtrees.OneRoot | apps/ingest/structure_aggregator.py:550-552 | Every skill in a subtree has the subtree's top as its root. |
| Subtrees.ParentLater | apps/ingest/structure_aggregator.py:550-611 | The skill a row is listed under closes later, or never: nesting is well founded even when frames close out of order. |
| TreeTotals.EveryCallOnce | apps/ingest/structure_aggregator.py:627-667 | **Main.** The finished tree has exactly one skill row per dispatch and one tool row per other tool use. |
| TreeCalls.SkillListed | apps/ingest/structure_aggregator.py:402-614 | **Main.** In the finished tree every dispatch has a row, under the skill that encloses it when it ends or at the top of its phase, named and marked as the stream says, listing exactly the rows that belong to it in their order. |
| TreeCalls.CallListed | apps/ingest/structure_aggregator.py:492-519 | **Main.** In the finished tree every tool call stands in the list it landed in, which holds the right calls and no other. |
| TreeCalls.ParallelCalls | apps/ingest/structure_aggregator.py:218-245 | **Main.** Two calls in a row of one message that are listed in the same place stand in one group of the finished tree, one right after the other. |
| TreeTotals.SkillRowTokens | apps/ingest/structure_aggregator.py:537-552 | **Main.** In the finished tree, a top-level skill's counters are those of its whole subtree. |
| TreeTotals.PhasesAddUp | apps/ingest/structure_aggregator.py:669-671 | **Main.** Phase counters add up to the session's, but for turns parked for a dispatch that never came. |
| TreeTotals.ParsedPhasesAddUp | apps/ingest/structure_aggregator.py:669-700 | **Main.** For transcripts whose lines have distinct uuids they add up exactly. |
| Lines.SplitConcat | apps/ingest/parser.py:203-210 | Lines of newline-terminated text followed by more text are its lines, then the others. |
| Lines.TotalsConcat | apps/ingest/cost_aggregator.py:206-207 | **Main.** Totals are a homomorphism on newline-terminated transcripts. |
| Lines.FirstLine | apps/ingest/parser.py:203-210 | Text without a break is one line; the text before a break is a line, and the rest is split on its own; a carriage return and newline are one break. |
| TranscriptStore.ComposesAll | apps/ingest/sources.py:185-220 | A compose exists exactly when every turn was fetched and no completed turn came back empty. |
| TranscriptStore.Store.RefreshCanopyCache | apps/ingest/sources.py:167-249 | The canopy row is re-seated, all or nothing, as the local prefix followed by every turn's transcript in turn order; a failed fetch writes nothing. |
| TranscriptStore.Store.Read | apps/ingest/sources.py:252-304 | **Main.** A read asks canopy exactly if the session is dispatched, has turns, and is forced, may still have a growing turn, or has no row for the current turns and the current local prefix; a refetch that is whole serves the local part followed by every turn's transcript as fetched in that call; a read without a refetch starts with the current local prefix and covers exactly the current turns. |
| TranscriptStore.FreshReads | apps/ingest/sources.py:264-304 | **Main.** Over any sequence of events, a forced read, or one while a turn may still grow, serves the captures followed by every turn's transcript as fetched then, and is complete exactly if all could be fetched. |
| TranscriptStore.ComposeConcat | apps/ingest/sources.py:185-220 | The transcripts of turns in a row stand in a row, all or nothing. |
| TranscriptStore.ComposeOne | apps/ingest/sources.py:190-214 | One turn composes to its transcript, unless it is missing, or empty although the turn is complete. |
| TranscriptStore.Store.RecomputeCost | apps/ingest/live_ingest.py:82-144 | The stored cost is the aggregator's report of the bytes read, replaced only by a whole read and, unless forced, never by a smaller figure. |
| TranscriptStore.Store.StoreTranscript | apps/ingest/live_ingest.py:25-79 | A capture is appended to the local row and to nothing else; the cost is then derived from what a read serves. With newline-terminated parts, on one side or on both, the new totals are those of the local part, the capture and canopy's tail. |
| TranscriptStore.UnaskedIsCurrent | apps/ingest/sources.py:264-304 | A read served from the cache without a refetch is whole, starts with the current local prefix and covers exactly the current turns. |
| TranscriptStore.Store.HonestAppend | apps/ingest/live_ingest.py:147-159 | **Main.** An honest append passes the ratchet, for a local session and for one that also ran on canopy. |
| TranscriptStore.Apply | apps/ingest/live_ingest.py:25-144 | One event changes the rows as the rules say, and writes the cost only from a whole read. |
| TranscriptStore.LocalIsCaptures | apps/ingest/live_ingest.py:45-71 | Over any sequence of events, the local row is exactly the concatenation of the captures. |
| TranscriptStore.CanopyIsLastSeated | apps/ingest/sources.py:167-249 | **Main.** Over any sequence of events, the canopy row is what the last event that seated one made of it: the captures up to that event, then the transcript of every turn recorded by then, in turn order, as fetched during that event. |
| TranscriptStore.ReadsAreSeated | apps/ingest/sources.py:252-304 | **Main.** Over any sequence of events, every read serves the captures up to then or the whole of a row that some event seated. |
| TranscriptStore.RatchetHolds | apps/ingest/live_ingest.py:110-144 | **Main.** Over any sequence without forced recomputes, the stored billable count never falls and is at least that of every whole read a cost was derived from. |
| TranscriptStore.Replay | apps/ingest/live_ingest.py:25-144 | **Main.** Any sequence of events leaves the rows and the stored figure that the rules give, and the stored cost is the old one or the report of a whole read made during some event. |
| SessionPool.LruCandidate | apps/common/cli_backend.py:1076-1093 | The search returns a least recently active session among the other unlocked ones, and none exactly if all others are locked. |
| PoolLaws.LastActiveIs | apps/common/cli_backend.py:716-725 | **Main.** In every run a session was last active when it was admitted or when the last turn on it ended; nothing in between counts. |
| PoolLaws.SweepTakes | apps/common/cli_backend.py:1095-1116 | A sweep goes after exactly the pooled sessions that are idle past the timeout and not mid-turn. |
| PoolLaws.AdmissionTakes | apps/common/cli_backend.py:738-781 | An admission over the cap goes after the session idle longest of those not mid-turn, never the newcomer, and after none exactly if all are mid-turn. |
| PoolSafety.LocalKeeps | apps/common/cli_backend.py:505-710 | A task that holds, or takes, one session's lock and changes only that session keeps the invariant of all others. |
| PoolSafety.EvictKeeps | apps/common/cli_backend.py:978-1026 | Each step of the eviction body keeps the invariant: killed before the HOME goes. |
| PoolSafety.AdmitKeeps | apps/common/cli_backend.py:738-781 | Admission with an LRU pop under the dict lock keeps the invariant. |
| PoolSafety.EffectKeeps | apps/common/cli_backend.py:485-1147 | Every action of every task keeps the invariant. |
| PoolSafety.TurnsAreAlone | apps/common/cli_backend.py:505-710 | **Main.** In every run, while a turn on a session is in flight no other task runs the eviction body on it, no other turn is in flight on it, and no other turn drives its subprocess. |
| PoolSafety.LiveHomesExist | apps/common/cli_backend.py:783-824 | **Main.** In every run, a live subprocess's staged HOME exists. |
| PoolSafety.PooledLocksAreTurns | apps/common/cli_backend.py:939-976 | In every run, a pooled session that is locked is mid-turn: whoever evicts from outside has popped it first. |
| PoolSafety.PoolSize | apps/common/cli_backend.py:752-761 | **Main.** In every run, the pool is within its cap, or at most one larger than the number of sessions mid-turn at some moment of the run. |
| PoolTracking.StepTracks | apps/common/cli_backend.py:738-781 | A live subprocess is untracked (its session is outside the pool and no task refers to it) after an action exactly if it was before or the action is one of three: the last task that refers to it is cancelled, or ends its turn, while the session is outside the pool; or a failed turn drops a newer session of its slug. |
| PoolTracking.UntrackedExactly | apps/common/cli_backend.py:939-976 | **Main.** In every run, the untracked subprocesses are exactly those that such an action lost and that have not died since. |
| PoolTracking.CarefulRunsLoseNone | apps/common/cli_backend.py:939-976 | **Main.** If no wait for a victim is cancelled, no turn takes the lock of a session outside the pool and no drop pops another session, every live subprocess is pooled or about to be evicted. |
| LostProcesses.CancelledAdmissionLoses | apps/common/cli_backend.py:763-781 | A run in which a waiting turn takes the popped victim's lock, the admission is cancelled, and a live subprocess is left untracked. |
| LostProcesses.OrphanedTurnLoses | apps/common/cli_backend.py:507-527 | A run in which a turn that waited behind a failing one boots a subprocess on a session that has left the pool. |
| LostProcesses.DropLoses | apps/common/cli_backend.py:1028-1033 | A run in which such a turn fails in its turn and drops the newer session of its slug, whose subprocess nobody tracks any more. |
| NovaRefresh.InsideKeeps | apps/common/nova_auth_flow.py:286-295 | The steps inside the lock keep the invariant. |
| NovaRefresh.PostIsCurrent | apps/common/nova_auth_flow.py:333-366 | What a call presents is the server's current refresh token. |
| NovaRefresh.NoTokenReused | apps/common/nova_auth_flow.py:240-303 | **Main.** In every run in which calls inside the lock finish within its time to live, no rotated token is presented again and at most one call is inside. |
| NovaRefresh.ReleaseSparesOthers | apps/common/nova_auth_flow.py:317-330 | **Main.** In every run, however late, a release leaves a lock that another call holds. |
| NovaRefresh.OverrunReusesToken | apps/common/nova_auth_flow.py:277-295 | The premise is needed: a concrete run in which a call outlives its lock presents a rotated token. |
| NovaRefresh.FreshIsNeverPosted | apps/common/nova_auth_flow.py:286-295 | **Main.** In every run, whatever the timing, a call posts only if the token it read inside the lock has less than five minutes to live. |
| NovaRefresh.RereadDecides | apps/common/nova_auth_flow.py:286-295 | A call that rereads a fresh token leaves without a request; one that rereads a stale one posts just that one. |
| NovaRefresh.LockDecides | apps/common/nova_auth_flow.py:240-285 | A call waits, five seconds at most, only for a token that needs a refresh; it gets the lock, for thirty seconds, exactly when nobody holds an unexpired one. |
| NovaRefresh.AnswerIsStored | apps/common/nova_auth_flow.py:240-366 | A waiting call looks again and leaves if another has refreshed; what the server answers is stored, with the time of the answer added to its lifetime, and nothing is stored of a request the server rejects. |
| Lineage.LeadsTo | apps/opps/decision_lineage.py:157-166 | One walk terminates on any log, cycles included, and answers reachability by one or more steps. |
| Lineage.PredecessorsOf | apps/opps/decision_lineage.py:152-167 | The loop returns, in log order, the ids that lead to the target. |
| Lineage.PredecessorsAre | apps/opps/decision_lineage.py:152-167 | **Main.** An id is returned exactly if the log has it and `superseded_by` leads from it to the target. |
| Candidates.MatchAlike | apps/opps/decision_lineage.py:194-218 | Repeated candidate names never change the match. |
| Candidates.MergedSelf | apps/opps/decision_lineage.py:187-191 | A log that is a copy teaches no new names. |
| Origins.WalkChain | apps/opps/decision_lineage.py:260-287 | The walk down the chain carries candidate names and finds one entry per run. |
| Origins.ByRunIs | apps/opps/decision_lineage.py:293-299 | After the stable sort, the entry looked up for a run is its latest, whatever other entries the history holds. |
| CloneHop.IndexRuns | apps/opps/decision_lineage.py:394-395 | The dictionary of lineage entries gives each run its last entry. |
| CloneHop.FindOrigin | apps/opps/decision_lineage.py:361-473 | The loops over clone hops and value streaks compute the origin the rules define. |
| CloneHop.StreakEnd | apps/opps/decision_lineage.py:442-448 | The traced run ends the longest unbroken streak of the value. |
| CloneHop.BuildOrigins | apps/opps/decision_lineage.py:496-517 | Every live id gets the origin of its first live row, and no other id gets one. |
| CloneHop.CloneIsTransparent | apps/opps/decision_lineage.py:361-473 | **Main.** A verbatim copy of the newest run put in front of any chain leaves every live row's origin as it was, except that new becomes decided in the source. |
| OriginLaws.MatchById | apps/opps/decision_lineage.py:194-218 | The row of the id itself decides, live or superseded. |
| OriginLaws.MatchByEarlier | apps/opps/decision_lineage.py:206-218 | Without it, the live row of the first earlier name that has one, whatever superseded rows come before. |
| OriginLaws.MatchSuperseded | apps/opps/decision_lineage.py:206-218 | Only if no earlier name has a live row, the first superseded one. |
| OriginLaws.MatchByRetired | apps/opps/decision_lineage.py:206-218 | Without any of these, a live row under a name that a fork retired. |
| OriginLaws.NoMatch | apps/opps/decision_lineage.py:213-218 | A log with none of the names does not have the decision. |
| OriginLaws.MergedNames | apps/opps/decision_lineage.py:187-191 | The names carried on are those of the row just found, then the older ones. |
| OriginLaws.RetiredName | apps/opps/decision_lineage.py:170-172 | A retired name is the id without its "-yyyymmdd-hhmm" suffix. |
| OriginLaws.RetiredOnly | apps/opps/decision_lineage.py:69-69 | An id is a retired one exactly if it ends in such a suffix, a number behind it allowed, and the name is what stands before the leftmost. |
| OriginLaws.NamesAre | apps/opps/decision_lineage.py:181-185 | A row is looked for under its id, under the other ids that lead to it, and under what any of these was retired from. |
| OriginLaws.HumanAnswer | apps/opps/decision_lineage.py:383-393 | A value a person set is the person's. |
| OriginLaws.OldestRunIsNew | apps/opps/decision_lineage.py:429-431 | What the oldest run of a chain decides is new there. |
| OriginLaws.AbsentIsNew | apps/opps/decision_lineage.py:432-434 | A decision the parent does not have is new. |
| OriginLaws.OtherValueIsChanged | apps/opps/decision_lineage.py:414-441 | A decision the parent has with another value is changed, and what is shown as replaced is what the parent shows. |
| OriginLaws.HumanValueIsChanged | apps/opps/decision_lineage.py:414-441 | If a person had set the parent's value, what is shown as replaced is the person's. |
| OriginLaws.SameValueIsKept | apps/opps/decision_lineage.py:442-462 | **Main.** A decision the parent has with the same value is carried if it was found under its own id and no row was retired in its favour, and reaffirmed otherwise; it is traced to the oldest run of the streak. |
| OriginLaws.VerbatimFork | apps/opps/decision_lineage.py:442-462 | **Main.** A fork that copied the log carries every live AI row, traced to the oldest run of its streak; a row in whose favour it retired another is reaffirmed. |
| OriginLaws.EditedFork | apps/opps/decision_lineage.py:435-441 | **Main.** A value edited in a fork is changed, and the previous value is what the parent shows. |
| OriginLaws.RenamedFork | apps/opps/decision_lineage.py:455-462 | **Main.** A decision found only under an older name, with the same value, is reaffirmed. |
| OriginLaws.NewInFork | apps/opps/decision_lineage.py:432-434 | **Main.** A decision with none of its names in the parent is new. |
| IdTokens.SplitBoth | apps/opps/doc_ids.py:22-31 | Counting and replacing an id works separately on both sides of a character outside its class. |
| IdTokens.CleanIsWhole | apps/opps/doc_ids.py:22-31 | The id is a whole token wherever it occurs, exactly when every substring occurrence is a whole id. |
| IdTokens.CountsAgree | apps/opps/doc_ids.py:107-109 | The guard that compares the two counts passes exactly when the id occurs nowhere but as a token. |
| DocIds.ReplaceMore | apps/opps/doc_ids.py:107-115 | One more text replacement extends the simultaneous substitution by one id. |
| DocIds.FindWhole | apps/opps/doc_ids.py:104-106 | The scan lists the whole ids in order of first appearance with their counts. |
| DocIds.Retarget | apps/opps/doc_ids.py:73-117 | **Main.** Running the requests in order leaves no source id standing whole in any link, puts the copy in its place and changes nothing else of a link; and substitutes the chosen ids in the text all at once. |
| DocIds.LinksRetargeted | apps/opps/doc_ids.py:89-103 | **Main.** A link whose url has a whole source id has its copy there, with the parts before and behind retargeted likewise; a url without one, and every range and segment, stay. |
| DocIds.Pieces | apps/opps/doc_ids.py:90-90 | A whole id is substituted on its own, apart from the text before and behind it. |
| DocIds.NoneLeft | apps/opps/doc_ids.py:89-103 | **Main.** After retargeting, no source id stands whole anywhere. |
| DocIds.TextLaws | apps/opps/doc_ids.py:90-92 | Text in which no source id stands whole is left alone. |
| DocIds.ChosenMeans | apps/opps/doc_ids.py:104-116 | **Main.** A text id is rewritten exactly when it occurs and all its occurrences are whole ids. |
| Overrides.MergeOverrides | apps/opps/decision_overrides.py:240-287 | The loops compute the merge of the stored rows with a batch. |
| Overrides.HistoryIsComplete | apps/opps/decision_overrides.py:265-279 | **Main.** A touched row stands at its newest state and its history is every state it superseded, newest first, cut at 25; an untouched row stands as stored. |
| Overrides.SavedFate | apps/opps/decision_overrides.py:265-287 | **Main.** A saved row is in the result, as saved, exactly if it is a confirmation, has a value of its own or a reason that is not blank, or its id was known before. |
| Overrides.StoredFate | apps/opps/decision_overrides.py:257-287 | **Main.** A stored row nobody touches stays as it is if it says something or has a history, and goes otherwise. |
| Overrides.MergedOrder | apps/opps/decision_overrides.py:255-287 | **Main.** The result stands in the order in which ids were first seen, each id once. |
| Overrides.MergeIsAnAction | apps/opps/decision_overrides.py:240-287 | **Main.** Saving two batches is saving them as one, unless the second touches an id the first save dropped. |
| Overrides.WhenMergeActs | apps/opps/decision_overrides.py:281-287 | **Main.** For batches that name each row once, that condition is exact. |
| TurnParser.StripNulStorable | apps/ingest/parser.py:181-195 | Stripping leaves no NUL in any string value and leaves storable values alone. |
| TurnParser.StripTextPieces | apps/ingest/parser.py:181-195 | A NUL goes, and what stands before and behind it stays. |
| TurnParser.Parser.ReadAssistant | apps/ingest/parser.py:247-282 | An assistant line adds its text and tool calls, in order, to what has been read. |
| TurnParser.Parser.ReadUser | apps/ingest/parser.py:284-306 | A user line adds its tool results and loses no pending text. |
| TurnParser.ParseTurns | apps/ingest/parser.py:203-333 | **Main.** The turns read in order are the transcript's text and tool blocks in order, NUL characters removed, and nothing is lost at any flush; where turns end is stated by TurnsApart and OneMessage. |
| TurnParser.TurnsApart | apps/ingest/parser.py:247-330 | **Main.** Another message, a user line and a result end the turn: the turns of the lines before and of the lines from there on are put side by side, and no text is joined across. |
| TurnParser.OneMessage | apps/ingest/parser.py:247-282 | The lines of one message that calls no tool make one turn, of all its text. |
| ValidationCache.Deployment.Validate | apps/common/auth_flow.py:461-546 | **Main.** Serves memory younger than the time to live of its outcome, else a row younger than the persisted one, else runs a live check and answers that; a cached answer rests on a live check of the same token and source younger than the persisted time to live plus the one for its outcome. |
| ValidationCache.Deployment.Invalidate | apps/common/auth_flow.py:366-387 | Drops the process's entry and the row. |
| ValidationCache.PromotionOutlivesTheRow | apps/common/auth_flow.py:516-529 | Promotion restarts the clock: an answer can be served longer than the persisted time to live. |
| ValidationCache.RejectionIsRechecked | apps/common/auth_flow.py:461-546 | A rejected token is checked again once the negative time to live is over, though the positive one is not. |
| RateLimit.Limiter.Allow | apps/common/rate_limit.py:49-68 | The counter follows the windows, and a call is admitted exactly if its place in its window allows it. |
| RateLimit.OneWindow | apps/common/rate_limit.py:54-65 | At most `limit` calls pass in one window. |
| RateLimit.FirstPass | apps/common/rate_limit.py:49-68 | **Main.** Of the calls in a window that follows a pause of its length, exactly the first `limit` pass, and the first in any case. |
| RateLimit.NextWindow | apps/common/rate_limit.py:49-68 | The first call after a window's end opens the next one, and passes. |
| RateLimit.AtMostTwice | apps/common/rate_limit.py:9-12 | **Main.** No time interval of the window's length, both ends included, admits more than twice the limit. |

## Left out

- Dollar costs, price lookup and their rounding; the model keeps only whether a turn was priced, because the "(direct turns)" row depends on it.
- In the structure tree: wall times, start times, display names, labels, previews, per-tool display cost, and the order of phases by ordinal. Frames, children and groups are values, and the source's references to a group are an index into the list; aliasing is not captured.
- In the cost breakdown: display names, ordinals, the cache hit ratio, and the order of phases.
- TreeRows.KidsGainResult: the preview and the end time that any result, error or not, writes into the row it finds; only the status is kept.
- TreeReport.Aggregate: narration rows in a phase that used no tokens, had nothing unpriced and called no tools are dropped, as the source does; the model claims nothing about them.
- TreeReport.RollTotals: the phase's wall span and its cost, with the other times and costs of the tree.
- Transcript.ProjectLine: JSON decoding and timestamp parsing; a line arrives decoded, with an empty usage object counted as none.
- Lines.TotalsConcat: bytes are taken to be valid UTF-8; decoding with replacement characters across a boundary is not modelled.
- TranscriptStore.Store.Read: unreadable compressed rows, more than one row per source, and the settle clock (whether the newest turn may still grow is a parameter of each call).
- TranscriptStore.Store.RecomputeCost: an exception inside the aggregator, after which the source keeps the stored figure.
- SessionPool.LruCandidate: ties in last activity; the state machine admits any least recently active session.
- PoolSafety.EffectKeeps: subprocess start-up is one action that leaves a process or none; a HOME staged by a cancelled thread and never recorded is not modelled; credential contents, resume ids, circuit breakers and the one-shot path are not modelled.
- PoolTracking.UntrackedExactly: the queue of a lock is not ordered, and a task whose lock was free on arrival may be overtaken, so the model has more runs than the source; the runs in LostProcesses keep to the source's order.
- NovaRefresh.NoTokenReused: Redis failures and the lockless path they lead to, reconnecting or disconnecting Nova while calls run, and answers of the token endpoint that are lost on the way.
- CloneHop.BuildOrigins: reading the chain from Drive, histories as shown to viewers, folding clones in a history and trimming it; run ids and dates are represented by their place in string order.
- Origins.WalkChain: runs outside the lineage, except that any entries of theirs leave origins unchanged; an id or a successor made of blanks only counts as absent.
- Candidates.MatchAlike: digits in a retired suffix are ASCII digits.
- DocIds.Retarget: walking a document to collect its text and links, index shifts after text replacements, and the count of occurrences; ids are assumed to be of id characters with no source id inside a copy.
- Overrides.MergeOverrides: the phase and question of a row, which the merge carries along, entries that are not rows, and a row without an override value, which the source tells apart from an empty one.
- TurnParser.ParseTurns: session ids, message ids of turns, plain-text previews and JSON decoding; keys of objects are left as they are, as in the source.
- ValidationCache.Deployment.Validate: each validation is one step; the token's hash is represented by the token, and a token that does not look real is rejected before.
- RateLimit.Limiter.Allow: cache failures, on which the source admits the call, and a counter that expires between two cache operations of one call.
- Views, schemas, redirects, HTTP clients, scripts and front-end configuration.
