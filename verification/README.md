# Verified model of svode-agents

This project models, in Dafny, four linked parts of the `svode-agents` crate and proves what they keep over
every input and every run.

1. **Line diff** (`LineDiff`). Myers' greedy search over one reused `furthest` array, the exit test that
   ignores the diagonal it is on, the paths that leave the grid, and the trimming of common head and tail. The
   reference is an edit script: the search returns the length of a shortest one, or nothing exactly when every
   one is beyond the limit; what it adds and removes is what a longest common subsequence leaves.
2. **Routine blocks** (`RoutineBlock`, `ContextScan`, `BlockScan`, `BlockLiveness`, `RoutinePrompt`,
   `RoutineRoundTrip`, `OwnerValues`). A printer, a whole-text recogniser and an incremental recogniser that
   forgets almost all it read. The incremental one agrees with the whole-text one for every chunking, and what
   it still takes for a possible block can become one exactly when what it lacks fits the limit; what the
   printer printed is stripped again, exactly when the launch is printable, also when it is cut short.
3. **Bounded streamed text** (`Text`, `DetailText`, `UserTexts`, `ShownTexts`). Head, tail and omitted characters
   of a text are kept chunk by chunk and are those of the whole text; a user message is shown without the block at
   its end, with every byte left out accounted for; and the prompt of a Routine, however chunked, is shown as its
   instruction.
4. **Session projection and protocol** (`Activity`, `Projection`, `TurnRetention`, `ProjectionRuns`,
   `Survival`, `LateUpdates`, `RuntimeIds`, `LocalIds`, `HeadSlices`, `Accounting`, `HeldSizes`, `TurnLog`,
   `SessionRuns`, `Timeline`, `Streams`, `MediaParts`, `HeldMessages`, `ItemContents`, `DetailBound`, `Processes`,
   `Interactions`, `RequestItems`, `Writers`, and the objects in `SessionProjections` and `Runtime`). Deltas and
   replication, turns and status, retention by whole turns, what the timeline and the lookups show, byte accounts
   shared by the sessions of a process, the request and answer protocol, and writer claims.

## How it is built

Text is a sequence of Unicode characters with UTF-8 widths of 1 to 4 bytes; byte limits are sums of widths.

The operations of the projection are written twice: as functions on a value (`Projection`), about which the
invariants over runs are proved, and as methods of an object that changes its fields in place
(`SessionProjections.SessionProjection`), each proved to end in the state the function gives. Its byte counts
are natural numbers, so no subtraction of the code underflows. The value also records the first snapshot,
every delta sent and every first insertion of an item; nothing reads these records but the statements.

`ProjectionRuns.Run` folds any list of operations; it has no result when the code panics on one of them, which
only a chunk or a lookup of a user message can make it do (`ProjectionRuns.Panics`). Of runs that go on four
kinds of facts are proved:

- `SessionRuns.Sound`, for any ids: byte accounts, delta log, legal turn changes and current status.
- `TurnRetention.Ordered`, for the runs of `AllAllowed`: ids of begun turns are new, live turns start after the
  replay, no agent update has the id of the user message held back, ids the runtime puts plans, interactions,
  outcomes and generic items under meet `IsUnclaimed`, and an update of a known item while a user message is held
  back meets `Survival.Rejoins`.
- `HeadSlices.UsersFit`, for runs whose tools, errors and settings keep their details off the ids of user
  messages: the code never panics.
- `HeldSizes.Sized`, for the runs of `AllStoreClear`, in which no detail but a user's own is stored under the id of a
  user message that holds the start of a block: the detail count is the bytes held.

## What does not hold

Each of these is a property the code was expected to have; the condition under which it has it is exact, can be
checked before the call, and comes with an input that fails.

- **Order under late updates.** `upsert` shows the held user message first, which may evict the very item an
  agent's update is for; the item then enters the list again under a turn already evicted.
  `Survival.UpdateKeepsOrder` says when the order survives, in terms of the items, the bounds and the message
  held back; `LateUpdates.LateUpdateBreaksOrder` is a run of four replayed actions, all but the last allowed,
  that breaks it.
- **Order under the runtime's ids.** An agent's tool call may take an id the runtime makes. The runtime's item then
  replaces it in place, under another turn. `RuntimeIds.PutKeepsOrder` is the exact condition for items of a turn,
  `ClaimBreaksOrder` a run of three actions that breaks the order.
- **Panic on a cut head.** A tool call under the id of a user message replaces the text held of it. When a block
  that began in the old head is then completed, or was and the message is looked up, the code slices the new head
  at a byte of the old one. `HeadSlices.PanicsExactly` gives the states in which a chunk or a lookup panics,
  `ClashPanics` and `LookupPanics` runs to both.
- **Size of a shared id.** A text put under the id of a user message that holds the start of a block is counted
  without that start. `HeldSizes.TextMiscounts`: the size is right if and only if no start is held, or the item is
  evicted at once.
- **Alive means completable.** A live scan need not have a whole extension: an owner value may start with its
  colon, white space may follow the start of an opening tag, or the limit may leave no room for what is missing.
  `BlockLiveness.LiveMayComplete` is the exact condition, with `NoKindInVain`, `SpaceInVain` and `FullInVain` as
  inputs.
- **Print then strip.** The instruction comes back if and only if the printed block is whole
  (`StripsExactlyWholeBlocks`): the owner value is an owner on one line or, holding ` -->`, goes on with the start
  of a launch marker (`OwnerValues.AnyPrintThenStrip`; `PathBreaksBlock` is a path that breaks it).
- **Pending without a request.** The end of a session inside a replayed turn, or of a prompt whose turn is not
  the current one, closes the open request and leaves its interaction pending (`Interactions.EndMayLeavePending`,
  `PromptMayLeavePending`; `PendingOutlives` is a session that does it).

There are no assumptions, no unchecked members and no verifier limits of its own in the project.
`dafny verify dfyconfig.toml` checks all of it.

## Model

| member | source | states |
|---|---|---|
| LineDiff.EditDistance | crates/svode-agents/src/changes.rs:281-306 | The result is the length of a shortest insert/delete script when that is within the limit and none otherwise, every array index in range; matched lines number at most (2·max+1)·min(n, m) |
| LineDiff.FollowSnake | crates/svode-agents/src/changes.rs:294-297 | Follows matching lines to the first cell that does not match, inside the grid, counting each match |
| LineDiff.CountLineChanges | crates/svode-agents/src/changes.rs:253-277 | Within the limit, added and removed are the new and old lines outside a longest common subsequence of the full texts, otherwise all of the middle; the work stays within `MAX_WORK` plus one pass |
| LineDiff.PastCorner | crates/svode-agents/src/changes.rs:299-301 | A cell beyond the corner on any diagonal is no nearer than the corner, so the exit needs no check of its diagonal |
| LineDiff.DistIsShortestEdit | crates/svode-agents/src/changes.rs:279-281 | The grid distance to a cell is the cost of a shortest script between the prefixes |
| LineDiff.DistGivesLcs | crates/svode-agents/src/changes.rs:265-271 | The distance and the length of a longest common subsequence determine each other |
| LineDiff.SnakeStart | crates/svode-agents/src/changes.rs:289-293 | The choice between the two neighbours of a round starts the furthest path of the diagonal |
| LineDiff.SnakeEnd | crates/svode-agents/src/changes.rs:294-298 | The end of the snake is the furthest cell of its diagonal reachable in d edits |
| LineDiff.HeadIsExact | crates/svode-agents/src/changes.rs:256 | Dropping the common head takes exactly its length off the longest common subsequence |
| LineDiff.TailIsExact | crates/svode-agents/src/changes.rs:257-262 | So does dropping the common tail |
| LineDiff.TrimmingIsExact | crates/svode-agents/src/changes.rs:253-263 | Trimming both keeps the shortest edit |
| LineDiff.MiddleIsBare | crates/svode-agents/src/changes.rs:256-263 | What is left of both lies between lines both begin and lines both end with, and neither begins nor ends like the other any more |
| LineDiff.CountsAreExact | crates/svode-agents/src/changes.rs:265-271 | The two halvings neither underflow nor round, and old minus removed equals new minus added equals the common lines |
| LineDiff.WorkWithinLimit | crates/svode-agents/src/changes.rs:24-28 | The limit keeps the work bound within `MAX_WORK` plus the shorter text |
| LineDiff.LimitIsGreatest | crates/svode-agents/src/changes.rs:264-265 | And is the greatest, from one edit up to `MAX_EDIT`, whose work is within `MAX_WORK` |
| Text.FloorCharBoundary | crates/svode-agents/src/projection.rs:1406-1411 | Walks back to the last character boundary at or before an index |
| Text.CeilCharBoundary | crates/svode-agents/src/projection.rs:1413-1418 | Walks on to the first character boundary at or after an index |
| Text.Bounded | crates/svode-agents/src/acp/normalize.rs:812-821 | A prefix of whole characters within the limit, all of a text that fits |
| Text.BoundedIsLongest | crates/svode-agents/src/acp/normalize.rs:812-821 | No longer prefix is within the limit |
| Text.MatchIndicesFindAll | crates/svode-agents/src/registry.rs:920-922 | For a pattern that cannot overlap itself the matches found are all its occurrences, in order |
| Text.TrimEndSplits | crates/svode-agents/src/registry.rs:899 | A text is its trimmed part and whitespace |
| RoutineBlock.ContextStable | crates/svode-agents/src/registry.rs:951-989 | Once the markers end in an opened context, more text does not move where it starts |
| RoutineBlock.DeadMarkersStay | crates/svode-agents/src/registry.rs:951-989 | A text that is no block and no start of one stays so whatever follows |
| RoutineBlock.MarkerExtends | crates/svode-agents/src/registry.rs:994-1007 | A finished marker stays finished with the same value under more text |
| RoutineBlock.AbsentStays | crates/svode-agents/src/registry.rs:994-1007 | A missing marker stays missing |
| ContextScan.PushSummarises | crates/svode-agents/src/registry.rs:1091-1115 | After a chunk the flags, the saturating count and the carry are those of the whole context read, tags across chunk borders counted once |
| ContextScan.SameTextSameEnd | crates/svode-agents/src/registry.rs:1117-1129 | Two readings of the same context, however chunked, are alive and end alike |
| ContextScan.DeadContextStays | crates/svode-agents/src/registry.rs:1117-1119 | A context that can no longer complete never can |
| ContextScan.ContextReader.Push | crates/svode-agents/src/registry.rs:1091-1115 | The fields after a chunk are those of the value form |
| BlockScan.ScanIsExact | crates/svode-agents/src/registry.rs:933-1130 | A live scan ends as the whole-text recogniser does on the text it read, and counts its bytes |
| BlockScan.DeadStays | crates/svode-agents/src/registry.rs:1047-1052 | A dead scan means no extension of its text is a block, whole or cut |
| BlockLiveness.LiveMayComplete | crates/svode-agents/src/registry.rs:1047-1052 | A live scan has a whole extension if and only if the context has opened, the block is whole already, or the bytes its unfinished marker or tag lacks fit the limit |
| BlockLiveness.MarkerNeeds | crates/svode-agents/src/registry.rs:994-1007 | A marker that ends in a longer text takes at least what its value and its end lack |
| BlockLiveness.MarkerEnds | crates/svode-agents/src/registry.rs:994-1007 | And there is a text of just that length that ends it |
| BlockLiveness.NoKindInVain | crates/svode-agents/src/registry.rs:953-957 | An owner value that starts with its colon is alive and never whole |
| BlockLiveness.SpaceInVain | crates/svode-agents/src/registry.rs:968-989 | So is white space after the start of an opening tag |
| BlockLiveness.FullInVain | crates/svode-agents/src/registry.rs:981-988 | So is an unfinished value that fills the limit |
| BlockScan.HeldIsBounded | crates/svode-agents/src/registry.rs:1067-1073 | A live scan holds at most the marker limit and one carry |
| BlockScan.StreamingIsWhole | crates/svode-agents/src/registry.rs:1012-1074 | All of this for every chunking with a non-empty first chunk |
| BlockScan.RoutineBlockScan.Push | crates/svode-agents/src/registry.rs:1031-1044 | The fields after a chunk are those of the value form, the context split off where it opened |
| BlockScan.RoutineBlockScan.End | crates/svode-agents/src/registry.rs:1054-1059 | The end it reports is that of the value form |
| BlockScan.RoutineBlockScan.Start | crates/svode-agents/src/registry.rs:1021-1029 | A scan of a text, exactly when the value form is alive |
| RoutinePrompt.PrintPrompt | crates/svode-agents/src/registry.rs:858-875 | The string built up is the trimmed instruction, a gap if it is not empty, the owner marker and the context in its tags |
| RoutinePrompt.StripSplits | crates/svode-agents/src/registry.rs:891-900 | Stripping takes a block that runs to the end of the text, and the white space before it, or nothing |
| RoutinePrompt.CutIsLater | crates/svode-agents/src/registry.rs:911-929 | The places of cut markers come after those of whole ones |
| RoutinePrompt.LookalikeIsNotWhole | crates/svode-agents/src/registry.rs:891-900 | No start before a printed block is a whole block, whatever the instruction holds |
| RoutinePrompt.PrintedContext | crates/svode-agents/src/registry.rs:867-873 | A printed context ends in its one closing tag exactly when it holds none of the two tags itself |
| RoutinePrompt.OpenedBlockEnds | crates/svode-agents/src/registry.rs:1117-1129 | A block whose context opened is whole exactly with one closing tag, white space after it and no opening tag, and cut exactly with neither tag and no owner marker |
| RoutinePrompt.OwnerValueIsOwner | crates/svode-agents/src/registry.rs:953-957 | Which owner kinds and paths print a value the recogniser accepts |
| RoutineRoundTrip.StripsExactlyWholeBlocks | crates/svode-agents/src/registry.rs:858-900 | For every launch: stripping the prompt gives the trimmed instruction if and only if the printed block is whole |
| RoutineRoundTrip.BlockIsWhole | crates/svode-agents/src/registry.rs:933-989 | A printed block is whole if and only if the launch is printable |
| RoutineRoundTrip.PrintThenStrip | crates/svode-agents/src/registry.rs:858-900 | Without the end of a marker in the owner value, print then strip is the trimmed instruction if and only if the launch is printable |
| OwnerValues.HeldEndIsWhole | crates/svode-agents/src/registry.rs:951-1007 | With one in it, the printed block is whole if and only if an owner precedes it, the start of a launch marker follows, and the limit and the context allow it |
| OwnerValues.AnyPrintThenStrip | crates/svode-agents/src/registry.rs:858-900 | So for every launch, print then strip is the trimmed instruction if and only if these hold |
| OwnerValues.PathBreaksBlock | crates/svode-agents/src/registry.rs:858-900 | A path with ` -->` in it is not stripped, whatever the instruction |
| RoutineRoundTrip.PrefixIsBlock | crates/svode-agents/src/registry.rs:933-1007 | Every non-empty start of a printed block is a block, whole or cut |
| RoutineRoundTrip.OnlyMarker | crates/svode-agents/src/registry.rs:911-929 | Without markers of its own a prompt holds one owner marker, its block's |
| RoutineRoundTrip.CutThenStrip | crates/svode-agents/src/registry.rs:891-929 | Such a prompt, cut anywhere after the first character of its block, strips to the trimmed instruction |
| DetailText.ExcerptDescribes | crates/svode-agents/src/projection.rs:1360-1371 | An excerpt is a prefix, a count and a suffix that make up the text, within the limit: half of it for the head and the rest for the tail, each filled but for a character cut |
| DetailText.ExtendKeeps | crates/svode-agents/src/projection.rs:1375-1396 | Extending the excerpt of a text gives the excerpt of the longer text |
| DetailText.StreamingIsExcerpt | crates/svode-agents/src/projection.rs:1360-1396 | Folding over any chunking gives the excerpt of the whole text |
| DetailText.BoundedIsWithin | crates/svode-agents/src/projection.rs:1334-1356 | What is kept of several blocks has the size stated and is within the limit; within it the blocks are unchanged, beyond it a text that describes their texts joined comes before their terminals |
| DetailText.BoundedExactly | crates/svode-agents/src/projection.rs:1334-1356 | Detail is refused if and only if it is beyond the limit and some block is neither text nor a terminal, or none is text, or the terminals alone take the limit; else all its texts, each on a line of its own, are one excerpt that leaves fewer than 8 bytes of the limit unused |
| DetailText.BoundDetail | crates/svode-agents/src/projection.rs:1334-1356 | The loop over the blocks comes to that result |
| UserTexts.ExtendTracks | crates/svode-agents/src/projection_user_text.rs:103-158 | Each chunk keeps what is held true to the whole message: head filled, omitted characters, a tail that reaches back at least half its budget, and the block start with its scan and as much of the text before it |
| UserTexts.ShownSplits | crates/svode-agents/src/projection_user_text.rs:174-235 | What is shown and what is left out split the message; what is left out is nothing, or whitespace and a whole block, and its bytes are those reported |
| UserTexts.ShownKeeps | crates/svode-agents/src/projection_user_text.rs:103-235 | Nothing else is missing from what is shown but the omitted characters, which lie between a filled head and a tail that reaches back at least half its budget |
| UserTexts.StreamedMessageShown | crates/svode-agents/src/projection_user_text.rs:103-235 | All of this for every message and chunking, and what is held stays within the limit |
| UserTexts.UserText.ExtendDetail | crates/svode-agents/src/projection_user_text.rs:103-158 | The fields and the detail after a chunk are those of the value form |
| ShownTexts.ShownReaches | crates/svode-agents/src/projection_user_text.rs:174-235 | Within the limit a message with a whole block is shown up to its first and any other as it is; beyond it, up to the start of a block followed to its whole end, else up to the first whole block of its tail or as it is held |
| ShownTexts.StripsFirst | crates/svode-agents/src/registry.rs:891-900 | Stripping takes a text from its first whole block on, wherever an owner marker may start one |
| ShownTexts.PromptShown | crates/svode-agents/src/projection_user_text.rs:103-235 | However the prompt of a launch with one marker is chunked and whatever the limit: what is shown ends where its block begins, and whenever it is shown in full it is the trimmed instruction, the rest counted as removed |
| ShownTexts.PromptWithin | crates/svode-agents/src/projection_user_text.rs:174-214 | Within the limit, the prompt of every launch whose block is whole is shown as its trimmed instruction, whatever lookalikes that holds |
| Activity.SessionView.Apply | crates/svode-agents/src/activity.rs:607-635 | A delta that is not the next is refused and changes nothing; the next one changes the fields as the value form does |
| Activity.AppliedTells | crates/svode-agents/src/activity.rs:604-635 | The next delta puts an item in the place of the one known by its id or last, takes evicted items, keeps a request while it is pending, and sets any other part; no other delta does anything |
| Activity.AppliedKeepsUnique | crates/svode-agents/src/activity.rs:607-635 | No delta makes an item id occur twice |
| Activity.ViewIsSnapshot | crates/svode-agents/src/activity.rs:604-635 | Whatever deltas reach a consumer, in whatever order, it holds the runtime's snapshot of the number it shows |
| Activity.ViewCatchesUp | crates/svode-agents/src/projection.rs:226-231 | A consumer that misses none reaches the runtime's snapshot |
| TurnRetention.PutNew | crates/svode-agents/src/projection.rs:1041-1052 | A new item of the current turn keeps the order |
| TurnRetention.PutKnown | crates/svode-agents/src/projection.rs:1041-1052 | A known item updated under its turn keeps the order |
| TurnRetention.OldestIsFirst | crates/svode-agents/src/projection.rs:1062-1069 | The oldest item outside the current turn is the first of all |
| TurnRetention.GroupIsPrefix | crates/svode-agents/src/projection.rs:1070-1080 | The group evicted is a prefix of the items that holds all of its turn |
| TurnRetention.GroupTurns | crates/svode-agents/src/projection.rs:1105-1121 | A group adds one distinct turn to those evicted, or none outside a turn |
| TurnRetention.EvictKeeps | crates/svode-agents/src/projection.rs:1084-1123 | An eviction removes a prefix, keeps the order, and leaves the markers counting items and distinct turns |
| TurnRetention.EnforceKeeps | crates/svode-agents/src/projection.rs:1057-1082 | The loop leaves a suffix of the items in order, within the bounds unless only items of the current turn are left |
| TurnRetention.ShowHeldKeeps | crates/svode-agents/src/projection.rs:980-987 | The user message held back takes its place at the end of the log |
| TurnRetention.NextReplayKeeps | crates/svode-agents/src/projection.rs:1175-1181 | A replayed turn has a name no earlier one had |
| TurnRetention.BeginKeeps | crates/svode-agents/src/projection.rs:239-262 | A turn with a new id begins in order |
| Survival.EvictionIsNeeded | crates/svode-agents/src/projection.rs:1057-1082 | Nothing is evicted within the bounds, and the last group evicted was the first of a list over them |
| Survival.EvictionsReach | crates/svode-agents/src/projection.rs:1057-1082 | Evictions reach a group outside the current turn if and only if the list from it on is over the bounds |
| Survival.StaysExactly | crates/svode-agents/src/projection.rs:980-987 | An item of another turn outlives the showing of the held message if and only if the items from the first of its turn on leave room for the message |
| Survival.StaysIsNotOver | crates/svode-agents/src/projection.rs:1057-1062 | That is: the list from there on with the message at its end is within both bounds |
| Survival.UpdateKeepsOrder | crates/svode-agents/src/projection.rs:1041-1052 | While a message is held back, an update of a known item keeps the order if and only if the item is of the current turn, outlives the message, or is outside turns while the current turn shows nothing |
| Survival.UpsertKeeps | crates/svode-agents/src/projection.rs:1041-1082 | An item that fits is put in order and the bounds hold or only the current turn is left |
| ProjectionRuns.StepKeeps | crates/svode-agents/src/projection.rs:148-1187 | Every operation that does not panic keeps the order when turn ids are new, ids the runtime puts items of a turn under are not claimed by another turn, and late updates may rejoin the list |
| ProjectionRuns.RunIsOrdered | crates/svode-agents/src/projection.rs:148-1187 | So over every such run: items are the last of those inserted, turns stand together, no evicted turn goes on, first insertions equal items plus truncated items, truncated turns are the distinct turns evicted |
| ProjectionRuns.PutUserInOrder | crates/svode-agents/src/projection.rs:949-978 | Putting, holding back or hiding a user message keeps the order |
| ProjectionRuns.FinishInOrder | crates/svode-agents/src/projection.rs:276-309 | Ending a turn keeps the order |
| ProjectionRuns.FreeStays | crates/svode-agents/src/projection.rs:1041-1052 | An id no other turn's item has keeps free while items of the current turn are put |
| LateUpdates.ReplayedReach | crates/svode-agents/src/projection.rs:662-725 | A run of three actions, all allowed, from a new session to one that holds a message of the second turn back after two items of the first |
| LateUpdates.LateUpdateBreaksOrder | crates/svode-agents/src/projection.rs:980-1052 | The next update of the first turn's tool call breaks the order: it is inserted a second time, after the second turn |
| RuntimeIds.PutKeepsOrder | crates/svode-agents/src/projection.rs:1041-1052 | An item of the current turn keeps the order if and only if none of another turn is known by its id, or none will be once the held message is shown |
| RuntimeIds.ClaimsReach | crates/svode-agents/src/projection.rs:662-725 | A run of two actions, both allowed: a tool call outside turns takes an id of the runtime, and a turn begins |
| RuntimeIds.ClaimBreaksOrder | crates/svode-agents/src/projection.rs:536-548 | The runtime's next item of that id takes the place of the agent's and breaks the order |
| HeadSlices.PanicsExactly | crates/svode-agents/src/projection_user_text.rs:174-185 | An action panics if and only if it is a chunk of a user message with which the block held of it is whole, or a lookup of one whose block is whole, and the block starts where a head held of the message has no character boundary |
| HeadSlices.StepFits | crates/svode-agents/src/projection.rs:662-725 | While details of tools, errors and settings are stored off the ids of user messages, no chunk and no lookup panics, and a block start is held only beside one excerpt in whose head it is a boundary |
| HeadSlices.RunNeverPanics | crates/svode-agents/src/projection.rs:148-1187 | So over every such run from a new session |
| HeadSlices.ClashPanics | crates/svode-agents/src/projection_user_text.rs:180-185 | A run of three actions the last of which panics: a tool call takes the id of a message whose block has begun |
| HeadSlices.LookupPanics | crates/svode-agents/src/projection.rs:550-558 | A run of four actions the last of which panics: a lookup of a message with a whole block, after a tool call took its id |
| LocalIds.MadeIsNeverMadeAgain | crates/svode-agents/src/projection.rs:1183-1187 | Over any run, an id the runtime made for an item is never the next it makes, under whatever scope and kind |
| LocalIds.StepCounts | crates/svode-agents/src/projection.rs:148-1187 | No operation makes the numbers in those ids start again |
| Timeline.EnforceSpares | crates/svode-agents/src/projection.rs:1057-1082 | The bounds never take an item of the current turn, nor anything held for it |
| Timeline.UpsertShows | crates/svode-agents/src/projection.rs:1041-1052 | An item of the current turn is in the list once put, whatever the bounds |
| Timeline.UpsertSpares | crates/svode-agents/src/projection.rs:1041-1052 | And so stays every other item of the current turn |
| Timeline.ResolveShows | crates/svode-agents/src/projection.rs:343-383 | Resolving the pending interaction within a turn leaves its record in the list and none pending |
| Timeline.FinishShows | crates/svode-agents/src/projection.rs:276-309 | The end of a turn leaves its outcome, and its error if it failed, in the list, its stop reason as the outcome, and nothing pending |
| Streams.MessageStreams | crates/svode-agents/src/projection.rs:662-725 | However a new message is cut into chunks, and whichever of them name it, all reach one item; the run does not panic, what is held is the fold over the chunks, the message stays open, and its item is in the list and shows that |
| Streams.StreamedText | crates/svode-agents/src/projection.rs:662-725 | So a thought holds the excerpt of its text, an agent message the text, and a user message shows its text without a block at its end and omits no more than the limit asks for |
| Streams.StreamedLookup | crates/svode-agents/src/projection.rs:550-573 | And a lookup of the message does not panic and answers just that, for a user message what is shown of it |
| Streams.UnnamedBegins | crates/svode-agents/src/projection.rs:662-689 | A chunk without an id, when no message of its role is open, begins one under the next id the runtime makes, in a replay a user chunk in the next turn |
| Streams.UnnamedGoesOn | crates/svode-agents/src/projection.rs:680-689 | One that finds a message of its role open goes on with it, in the same turn and without an id of its own |
| Streams.OpenIsClosed | crates/svode-agents/src/projection.rs:215-316 | No message is open after a tool call, a plan, the begin or the end of a turn, or the replay |
| Streams.EnforceCloses | crates/svode-agents/src/projection.rs:1100-1104 | And the bounds close the open message exactly when they take its item |
| Streams.ReleasedTakesNoMore | crates/svode-agents/src/projection.rs:662-725 | A chunk for a message whose text was released or refused changes nothing that is shown or held |
| Streams.BeginShows | crates/svode-agents/src/projection.rs:239-262 | A turn begun is current and runs, or waits for a request left pending, and its prompt is held and shown as its first message |
| MediaParts.MediaStreams | crates/svode-agents/src/projection.rs:729-774 | However an agent message and its media are chunked, its item shows every part in order, numbered, and placed at the UTF-16 length of the text up to the end of its chunk, and its data is held within the per-item bound |
| MediaParts.PartIsFound | crates/svode-agents/src/projection.rs:575-609 | A lookup of any part of it answers its data, or that it had none or too much |
| MediaParts.SegmentTells | crates/svode-agents/src/projection.rs:575-609 | Of any item, a lookup of a segment that tells of no data answers that none was provided, else what is held under its number, or why it is not |
| MediaParts.NoneTells | crates/svode-agents/src/projection.rs:575-587 | Nothing is found if and only if the item is unknown or no segment of it has that id |
| MediaParts.ToolMediaHeld | crates/svode-agents/src/projection.rs:790-819 | The media data an update of a tool call brings take the place of those held, each within the bound, and without any those held stay |
| HeldMessages.BareIsNeverShown | crates/svode-agents/src/projection.rs:949-987 | A replayed prompt that is all block, in whatever chunks, never shows any part of itself, nor is it held back once complete |
| HeldMessages.PutUserIsShown | crates/svode-agents/src/projection.rs:949-978 | A user message with segments, or with text that is more than the start of a block, is in the list |
| HeldMessages.PromptBegins | crates/svode-agents/src/projection.rs:239-262 | A turn begun with the prompt of a Routine shows its instruction, and a lookup answers it |
| ItemContents.ToolShows | crates/svode-agents/src/projection.rs:872-929 | An update of a tool call leaves in its item what it tells and, for what it leaves out, what was known, or the defaults of a new one; its detail is kept within the bound, refused only as the bound has it, or left alone |
| ItemContents.PlanShows | crates/svode-agents/src/projection.rs:858-869 | The plan of a turn is its one plan item |
| ItemContents.CaptionIsFirst | crates/svode-agents/src/projection.rs:343-383 | The caption recorded is that of the first option of the id chosen, none if there is none |
| ItemContents.ResolveRecords | crates/svode-agents/src/projection.rs:343-383 | A resolved request is in the timeline with how it ended, what it asked, and the caption of what was chosen |
| ItemContents.SettersSet | crates/svode-agents/src/projection.rs:403-535 | A setter changes its one part of the snapshot and sends a delta exactly when that was not so before |
| ItemContents.SettingShows | crates/svode-agents/src/projection.rs:510-519 | A mode or config change leaves its settings, and its note in the turn |
| ItemContents.GenericShows | crates/svode-agents/src/projection.rs:536-547 | So does an update with no item of its own |
| ItemContents.EndReplayShows | crates/svode-agents/src/projection.rs:215-219 | A message held back at the end of a replay is shown |
| ItemContents.LookUpTells | crates/svode-agents/src/projection.rs:550-573 | Detail refused is too large, released detail released, an item without any has none, and no other id is known |
| ItemContents.ToolLookup | crates/svode-agents/src/projection.rs:550-573 | A lookup after an update answers the detail of the update, or too large as the bound has it |
| ItemContents.ReleasedLookup | crates/svode-agents/src/projection.rs:614-645 | Released detail is gone for a lookup, and its item is still there |
| Accounting.PutItemAccounted | crates/svode-agents/src/projection.rs:1041-1050 | Putting an item keeps compact bytes the sum of item sizes |
| Accounting.EvictAccounted | crates/svode-agents/src/projection.rs:1084-1099 | Eviction keeps both accounts |
| Accounting.SetDetailAccounted | crates/svode-agents/src/projection.rs:1021-1029 | Replacing detail keeps detail bytes the sum of what is held |
| Accounting.TakeMediaAccounted | crates/svode-agents/src/projection.rs:776-780 | So does taking media |
| Accounting.PutMediaAccounted | crates/svode-agents/src/projection.rs:782-787 | And putting it |
| Accounting.ReleaseItemAccounted | crates/svode-agents/src/projection.rs:632-642 | And releasing an item's detail, by exactly the bytes freed |
| Accounting.SizeIsText | crates/svode-agents/src/projection.rs:1291-1329 | The compact size of an item is the bytes of all its text, 64 for itself and each of its media and 16 for each place |
| HeldSizes.RunIsSized | crates/svode-agents/src/projection.rs:148-1187 | Over every run of `AllStoreClear`, the size recorded for each item is the bytes of all text held for it, that kept to find a block included, and the detail count is the sum of these and of the media |
| HeldSizes.TextMiscounts | crates/svode-agents/src/projection.rs:938-947 | A text put leaves that size right if and only if no start of a block is held under its id, or it is evicted at once |
| TurnLog.EmitLogged | crates/svode-agents/src/projection.rs:1148-1165 | The snapshot stays what the deltas sent make of the first one |
| TurnLog.ActiveWasBegun | crates/svode-agents/src/projection.rs:239-262 | An active turn was begun, and since then none ended or began |
| TurnLog.TurnsEndOnce | crates/svode-agents/src/projection.rs:275-309 | Every end is of the turn last begun, with an outcome, and no other end lies between the two |
| TurnLog.EndedHasOutcome | crates/svode-agents/src/projection.rs:1125-1133 | Between turns the last one has an outcome |
| SessionRuns.StepSound | crates/svode-agents/src/projection.rs:148-1187 | Every operation the code does not panic on keeps the accounts, the delta log, legal turn changes and the status told by the turn and the request, whatever the ids |
| SessionRuns.RunIsSound | crates/svode-agents/src/projection.rs:148-1187 | So over every run from a new session, up to a panic |
| SessionRuns.StatusLaw | crates/svode-agents/src/projection.rs:1189-1203 | Over every run: idle with the last outcome if and only if no turn is active, requiring action of a kind if and only if a turn is active and an interaction of that kind pending, running if and only if a turn is active and none is |
| SessionRuns.FinishSound | crates/svode-agents/src/projection.rs:275-309 | Ending the current turn leaves none active and records its outcome; any other call changes nothing |
| SessionRuns.InterruptSound | crates/svode-agents/src/projection.rs:311-323 | An interrupt ends the active turn |
| SessionRuns.RefreshSound | crates/svode-agents/src/projection.rs:1135-1146 | Refreshing the status leaves it the one the turn and the request tell |
| SessionRuns.ConsumersAgree | crates/svode-agents/src/projection.rs:226-231 | A consumer of a session holds a snapshot the session had, no item twice |
| SessionRuns.ConsumersCatchUp | crates/svode-agents/src/projection.rs:1148-1165 | One that misses no delta holds the session's snapshot |
| DetailBound.ReleaseItemFrees | crates/svode-agents/src/projection.rs:632-660 | Releasing an item frees all it may, touches no other item, and leaves agent text |
| DetailBound.ReleaseIsInOrder | crates/svode-agents/src/projection.rs:614-645 | Candidates are released in the order given, all of them or just enough, and what is freed is what they held |
| DetailBound.ReleaseIsOldestFirst | crates/svode-agents/src/projection.rs:614-645 | In a session, when an item loses detail every earlier one outside the current turn has none left to release, and without the last item that lost any too little were freed |
| DetailBound.ReleaseDetailFrees | crates/svode-agents/src/projection.rs:611-645 | The bytes returned are those freed, the current turn and agent texts stay, and too little freed means nothing is left |
| DetailBound.OpeningSorts | crates/svode-agents/src/runtime.rs:2120 | Sessions are ordered by when they were opened, each once |
| DetailBound.EnforceAsksFirst | crates/svode-agents/src/runtime.rs:2121-2130 | A first part of the sessions is asked, all but its last exhausted, and the rest is untouched |
| DetailBound.EnforceNoMore | crates/svode-agents/src/runtime.rs:2121-2130 | No more is released than needed: some item lost detail without which the total would be over the bound |
| DetailBound.BoundIsEnforced | crates/svode-agents/src/runtime.rs:2108-2131 | The total ends within the bound or nothing is left to release, a session loses detail only when all opened earlier are exhausted, and the total stays the sum |
| Processes.RunIsBalanced | crates/svode-agents/src/runtime.rs:2108-2131 | Over every interleaving of opening, acting, freeing and dropping, the process count is the bytes its sessions hold: never negative, and nothing once none is left |
| Processes.DropTakesItsShare | crates/svode-agents/src/projection.rs:1205-1210 | Dropping a session takes exactly what it holds off the count, which was at least that |
| Processes.FreeingIsExact | crates/svode-agents/src/runtime.rs:2121-2130 | Freeing one session takes off the count exactly the bytes freed, ends within the bound or with nothing left in it, and leaves the others |
| Processes.SoundIsKept | crates/svode-agents/src/runtime.rs:2108-2131 | Every session of a run is one whose detail the bound may release |
| Interactions.AskOrderly | crates/svode-agents/src/runtime.rs:2557-2599 | A request keeps the protocol |
| Interactions.AskTakesOne | crates/svode-agents/src/runtime.rs:2557-2599 | A request that finds none open becomes the pending interaction as asked, under a new name; another is answered `cancel` at once and changes nothing else |
| Interactions.StatusWaits | crates/svode-agents/src/runtime.rs:2557-2599 | Asked in an active turn, the session requires action of the kind asked; without one it stays idle |
| Interactions.StatusRunsOn | crates/svode-agents/src/runtime.rs:1806-1838 | An accepted answer leaves an active turn running |
| RequestItems.AskShowsTool | crates/svode-agents/src/runtime.rs:2587-2590 | The tool call a permission is about is in the timeline when the request appears |
| RequestItems.AnswerRecords | crates/svode-agents/src/runtime.rs:1824-1837 | An accepted answer is recorded with what it chose |
| RequestItems.PromptEndShows | crates/svode-agents/src/runtime.rs:1776-1786 | The end of the prompt of the current turn leaves its outcome, its error if it failed, and nothing active or pending |
| RequestItems.PromptEndRecords | crates/svode-agents/src/projection.rs:276-309 | And the request that was pending, recorded as cancelled if the turn was, else as expired |
| RequestItems.CancelRecords | crates/svode-agents/src/runtime.rs:2228-2246 | A cancel of an active turn records its open request as cancelled |
| RequestItems.SessionEndLeaves | crates/svode-agents/src/runtime.rs:2277-2284 | The end of a session leaves no turn active and no writer |
| RequestItems.SessionEndShows | crates/svode-agents/src/runtime.rs:2277-2284 | Its active turn is interrupted, and in the timeline as such |
| RequestItems.SessionEndRecords | crates/svode-agents/src/runtime.rs:2277-2284 | And a request still pending, recorded as expired |
| Interactions.AnswerOrderly | crates/svode-agents/src/runtime.rs:1806-1838 | An answer keeps the protocol |
| Interactions.CancelOrderly | crates/svode-agents/src/runtime.rs:2228-2246 | So does a cancel |
| Interactions.CancelAnswers | crates/svode-agents/src/runtime.rs:2228-2246 | A cancel of an active turn answers and closes the open request and leaves the turn cancelling; without a turn it does nothing |
| Interactions.EndsOrderly | crates/svode-agents/src/runtime.rs:1776-1786 | And the end of a prompt or session |
| Interactions.EndsSilently | crates/svode-agents/src/runtime.rs:1776-1786 | Which resolves the open request without a response |
| Interactions.LifeIsOrderly | crates/svode-agents/src/runtime.rs:404-425 | Over every interleaving: the open request is the pending interaction, and no request is answered more often than asked |
| Interactions.OnlyTextsPanic | crates/svode-agents/src/runtime.rs:1824-1831 | An answer always finds the pending interaction it expects; only a chunk of a message or a lookup may panic |
| Interactions.OutcomeIsFinal | crates/svode-agents/src/runtime.rs:404-425 | A resolved outcome is written once; every later answer gets it and changes nothing |
| Interactions.AcceptedOnce | crates/svode-agents/src/runtime.rs:1806-1838 | An answer is accepted exactly when it is of the open request and fits, and then sends one response and closes the request; otherwise nothing changes |
| Interactions.EndMayLeavePending | crates/svode-agents/src/runtime.rs:2277-2284 | The end of a session clears the pending interaction if and only if no replayed turn is current |
| Interactions.PromptMayLeavePending | crates/svode-agents/src/runtime.rs:1776-1786 | The end of a prompt clears it if and only if the prompt's turn is the current one |
| Interactions.PendingOutlives | crates/svode-agents/src/runtime.rs:2277-2284 | A session asked something after a replayed user message ends with the request closed and its interaction pending |
| Writers.OneClaimEach | crates/svode-agents/src/writer.rs:69-87 | No two live claims have one target |
| Writers.ClaimIsExclusive | crates/svode-agents/src/writer.rs:95-116 | A session is granted to a writer exactly when no managed writer holds it and the evidence allows it; a refusal changes nothing |
| Writers.RefusalTells | crates/svode-agents/src/writer.rs:95-116 | A refusal names the managed writer exactly when there is one, else says that the session runs outside, else asks for confirmation |
| Writers.OthersAreRefused | crates/svode-agents/src/writer.rs:120-194 | A launch or a bind is refused, with the writer, exactly when another claim holds the target |
| Writers.BindMovesItsSlot | crates/svode-agents/src/writer.rs:173-194 | A bind moves its own slot and frees no other; a refused one changes nothing |
| Writers.DropFreesItsSlot | crates/svode-agents/src/writer.rs:197-208 | A drop frees exactly its own slot |
| Writers.RunMatches | crates/svode-agents/src/writer.rs:89-208 | Over every sequence of operations live claims and held slots are in bijection with matching ids |
| Writers.WriterRegistry.ClaimSession | crates/svode-agents/src/writer.rs:95-116 | The registry object after a claim, and the claim made |
| Writers.WriterRegistry.ClaimNewLaunch | crates/svode-agents/src/writer.rs:120-133 | The same for a launch |
| Writers.WriterRegistry.BindClaim | crates/svode-agents/src/writer.rs:173-194 | The registry and the claim after a bind |
| Writers.WriterRegistry.DropClaim | crates/svode-agents/src/writer.rs:197-208 | The registry after a drop |
| SessionProjections.ReleaseData | crates/svode-agents/src/projection.rs:651-657 | The loop releases every datum held and sums their sizes |
| SessionProjections.HoldParts | crates/svode-agents/src/projection.rs:748-753 | The loop holds each part within its bound and numbers its segment on |
| SessionProjections.SessionProjection.StoreItemDetail | crates/svode-agents/src/projection.rs:1021-1039 | Detail replaced, both counts moved by the difference, no underflow |
| SessionProjections.SessionProjection.EvictItems | crates/svode-agents/src/projection.rs:1084-1123 | The state after the two loops of an eviction, accounts right, other sessions' share untouched |
| SessionProjections.SessionProjection.EnforceSessionBounds | crates/svode-agents/src/projection.rs:1057-1082 | The loop ends and comes to the value form's state |
| SessionProjections.SessionProjection.UpsertItem | crates/svode-agents/src/projection.rs:1041-1052 | The state after the held message is shown, the item put and the bounds enforced |
| SessionProjections.SessionProjection.PutUser | crates/svode-agents/src/projection.rs:949-978 | The state after a user message is put |
| SessionProjections.SessionProjection.StartTurn | crates/svode-agents/src/projection.rs:239-262 | A turn begins unless one is active |
| SessionProjections.SessionProjection.ResolveRequest | crates/svode-agents/src/projection.rs:343-383 | The state after a pending interaction is resolved |
| SessionProjections.SessionProjection.CloseTurn | crates/svode-agents/src/projection.rs:276-309 | The state after a turn ends |
| SessionProjections.SessionProjection.InterruptSession | crates/svode-agents/src/projection.rs:313-323 | The state after an interrupt |
| SessionProjections.SessionProjection.CompleteReplay | crates/svode-agents/src/projection.rs:215-219 | The state after the replay |
| SessionProjections.SessionProjection.AppendChunk | crates/svode-agents/src/projection.rs:662-725 | The state after a chunk of a message, unless it is the one the code panics on |
| SessionProjections.SessionProjection.MergeTool | crates/svode-agents/src/projection.rs:872-929 | The state after an update of a tool call |
| SessionProjections.SessionProjection.ShowPlan | crates/svode-agents/src/projection.rs:858-869 | The state after a plan |
| SessionProjections.SessionProjection.ShowSetting | crates/svode-agents/src/projection.rs:510-519 | The state after a mode or config change, given the settings it leaves |
| SessionProjections.SessionProjection.ShowGeneric | crates/svode-agents/src/projection.rs:536-548 | The state after an update with no item of its own |
| SessionProjections.SessionProjection.DetailOf | crates/svode-agents/src/projection.rs:550-573 | The loop answers what the value form of a lookup does, unless it panics |
| SessionProjections.SessionProjection.FreeDetail | crates/svode-agents/src/projection.rs:614-645 | The loop releases what the value form does and returns the bytes |
| SessionProjections.SessionProjection.Drop | crates/svode-agents/src/projection.rs:1205-1210 | The process loses exactly this session's share |
| Runtime.AgentSession.Ask | crates/svode-agents/src/runtime.rs:2557-2599 | The session after a request |
| Runtime.AgentSession.Answer | crates/svode-agents/src/runtime.rs:1806-1838 | The session after an answer; the pending interaction it expects is there |
| Runtime.AgentSession.CancelTurn | crates/svode-agents/src/runtime.rs:2228-2246 | The session after a cancel |
| Runtime.AgentSession.FinishPrompt | crates/svode-agents/src/runtime.rs:1776-1786 | The session after its prompt ended |
| Runtime.AgentSession.End | crates/svode-agents/src/runtime.rs:2277-2284 | The session after its connection went |
| Runtime.CountedIsValid | crates/svode-agents/src/projection.rs:1030-1039 | Each session counted on the process can take its share off without underflow |
| Runtime.ActingKeepsCounted | crates/svode-agents/src/projection.rs:1030-1039 | An operation on one session object leaves the process count the sum over all, and every other session valid |
| Runtime.OpeningKeepsCounted | crates/svode-agents/src/runtime.rs:1611-1650 | So does opening a session |
| Runtime.DroppingKeepsCounted | crates/svode-agents/src/projection.rs:1205-1210 | And dropping one |
| Runtime.EnforceProcessBound | crates/svode-agents/src/runtime.rs:2108-2131 | The loop over the session objects leaves each in the state the value form gives, and the process count the sum of their shares and others' |

## Left out

- Splitting a text into lines, and `diff_locations` and the tool paths beside the diff: the diff starts from two lists of lines.
- `bounded_segments` and `shown_segments`: the segments a user message shows are inputs. Their cut depends on the chunking for text beyond ASCII.
- Agent protocol parsing, media parsing and tool paths: updates arrive as values with sizes; a tool update carries the tool call as the update leaves it.
- `merge_tool_call`, which is `upsert_tool` by another name; the kind and declared size of a media segment; the segments a tool call shows, which come with its update.
- Settings of unstable models and legacy modes: a mode or config change carries the settings it leaves.
- Times: durations of turns, `turn_at`, idle times and the sweeps by them.
- Integer widths: counters are unbounded. The closing-tag count saturates at 255 as in the code; `usize::MAX` bounds an agent message as in the code.
- Sessions' files, processes, channels and tasks: only the atomic steps taken under a session's locks are modelled. The order in which locks are taken is not.
- Requests for a session the connection does not know are answered `cancel` at once; they touch no session.
- `interaction::validate` is an arbitrary predicate on the pending interaction and the answer.
- Draft sessions, launch values, listing and paging.
- SessionProjections.SessionProjection.AppendChunk: like `DetailOf`, not in the states of `HeadSlices.PanicsExactly`; what a panic under the session's lock leaves behind is not modelled.
- ProjectionRuns.RunIsOrdered: for the runs of `AllAllowed`; an agent's update under the id of the very message held back is outside it, and so is a runtime item outside any turn whose id an item of a turn has.
- SessionProjections.SessionProjection.PutUser: the user texts are values in a map here; the object form of one is `UserTexts.UserText`.
