# Verified models of the opendbx core

opendbx is a terminal client that diagnoses databases with a language model. This project
models the parts of it that hold state or cut text, and proves what they promise:

- the multi-turn **diagnose loop** with its per-run result cache and its tool scope
  (`Scope`, `Dedup`, `Loop`, `LoopLog`, `LoopSafety`, `RunEnds`, `Answers`,
  `EventGrammar`, `Transparency`);
- the **buffered log writer** as a concurrent protocol (`Writer`, `WriterSafety`);
- the **event-to-scrollback pipeline** (`LlmApp`, `Scrollback`), joined to the loop in `EndToEnd`;
- **lock-free span state** (`Span`, `SpanProtocol`) and the **UUIDv7 clock** (`Hex`, `Uuid`);
- **skills**: ranking of roots, resolution of names, discovery (`Order`, `SkillRoots`,
  `SkillNames`, `Discovery`) and the frontmatter splitter (`Frontmatter`);
- **report text**: fenced blocks, a reader of them, and summaries (`Markdown`, `Report`);
- the **history ring** and its navigation (`History`, `DemoApp`).

`dafny verify dfyconfig.toml` checks everything.

Code that changes fields, maps, slices or arrays step by step is written here as classes and
methods with loops. Each is proved against a function of the old state; the lemmas are then
about those functions, over all inputs, all runs or all interleavings.

## How the surroundings are modelled

The provider, the tools, the consumer, JSON and SHA-256 are the functions of a `World`; a
non-cacheable tool may answer differently at every turn and call position. Two calls see the
total deadline as an oracle: its state at each call position is arbitrary, except in the
transparency theorem. A registry is assumed to list each tool once under its schema's name,
as its constructor ensures. The writer's scheduler is an arbitrary sequence of steps, each a
section under the lock or one call of `writeFn` outside it; whether a timer was stopped in
time is arbitrary. The preview drained by the chat model is arbitrary. A scanned directory, a
loaded file and a validated skill are functions of a `Disk`; a loaded skill carries its file's
path and its root's precedence (`discovery.go`, lines 83-118), and a valid one has a name.

## Where the code and its comments disagree

- `buffered_writer.go` says that at most one drain goroutine is in flight and that order is
  preserved (lines 59-66, 184-187 and 213-216). The code does not ensure it: `flushLocked`
  takes a pending overflow away from a live drain (lines 139-144), and the next overflow
  starts another one (lines 188-203). `WriterSafety.OrderIsKeptIff` says for every run exactly
  when the claim holds, decided before each step: a write that reaches a threshold finds a
  non-nil pending overflow or no live drain, and what a flush writes commutes with what drains
  hold captured. `WriterSafety.HarmfulFlushSplitsTheDrain` and
  `WriterSafety.OrderFailsInGeneral` show it failing. That nothing is written twice (lines
  123-126) and that nothing is lost holds without any restriction.
- `loop.go` says that the error is nil only for Stop, StopSequence and Length (lines 137-139). A
  stream that finishes as cancelled or in error without giving an error also returns nil
  (`RunEnds.NoErrorIff`).
- That a returned `End` means the span was emitted holds exactly for spans on which `End` is
  called at most once (`SpanProtocol.ReturnedEndHasEmittedIff`): a second `End` can return
  between the swap and the emission of the first (`SpanProtocol.SecondEndMayReturnFirst`).
- That a block of the report cannot be spoofed (`report.go`, lines 74-77) holds for every tool
  input and result. A tool name is written unfenced: the section is read back exactly when no
  line of a heading opens a block (`Report.SectionReadsBackIff`), as with every name on one line.
- A fenced text that ends in a carriage return is still read back byte for byte as lines, but
  its last line then ends in CR LF, so a reader that strips the final line ending loses the
  carriage return (`Report.TextReadsBackIff`).

## Model

| member | source | states |
|---|---|---|
| DiagnoseLoop.NewLoop | internal/app/diagnose/loop.go:100-133 | whatever the options, turn cap and window are at least one, which LoopSafety.ExecutionBound asks |
| DiagnoseLoop.RunLoop | internal/app/diagnose/loop.go:147-448 | the whole run, with the cache an object changed in place, computes the run that every theorem on the loop is about, on every return path |
| DiagnoseLoop.RunTurn | internal/app/diagnose/loop.go:175-279 | one turn: start event, narrowed request, stream, promotion of a missing finish reason, and the finish switch |
| DiagnoseLoop.DrainStream | internal/app/diagnose/loop.go:200-234 | text, tool calls and finish reason accumulated from the chunks, up to the first event the consumer refuses |
| DiagnoseLoop.RunTools | internal/app/diagnose/loop.go:280-432 | a tool turn is refused before anything is announced if it has no calls or an unknown name, and otherwise commits both turns or neither |
| DiagnoseLoop.AnnounceCalls | internal/app/diagnose/loop.go:331-338 | all calls are announced before any of them runs, stopping at a refused event |
| DiagnoseLoop.DispatchCalls | internal/app/diagnose/loop.go:340-423 | calls are answered serially, each seeing the scope and the cache the one before it left; cache object and specification agree after every answered call |
| DiagnoseLoop.DispatchCall | internal/app/diagnose/loop.go:362-416 | a denied call touches neither cache nor tool; a hit is served only if the total deadline has not fired; scope follows every success, fresh or cached; only a fresh success is stored |
| DiagnoseLoop.DedupResolve | internal/app/diagnose/loop.go:459-478 | a key is derived exactly for cacheable calls whose input marshals, and a hit is a live entry under it |
| DiagnoseLoop.AnnounceOnlyEmits | internal/app/diagnose/loop.go:331-338 | announcing changes nothing but the event log |
| DiagnoseLoop.DrainOnlyEmits | internal/app/diagnose/loop.go:200-234 | draining a stream changes nothing but the event log |
| Scope.ApplyFilter | internal/app/diagnose/scope.go:35-51 | exactly the schemas whose dispatch the filter would not deny, in their order |
| Scope.NormalizeFilter | internal/app/diagnose/scope.go:59-72 | each name once, at its first occurrence; no filter stays no filter |
| Scope.ScopeDenied | internal/app/diagnose/scope.go:76-86 | denied exactly under a filter that lacks the name, the Skill tool never |
| Scope.AdvertisedIffDispatchable | internal/app/diagnose/scope.go:35-86 | a schema is advertised exactly when its dispatch would not be denied, and as often as it was offered |
| Scope.NarrowingKeepsOrder | internal/app/diagnose/scope.go:35-51 | narrowing keeps the order of the schemas |
| Scope.NormalizingKeepsVerdicts | internal/app/diagnose/scope.go:53-86 | normalising a filter changes no verdict |
| Scope.DistinctIsFirstOccurrences | internal/app/diagnose/scope.go:53-72 | normalising keeps the set of names, without repeats, in order of first occurrence |
| Dedup.KeyInjective | internal/app/diagnose/dedup.go:48-55 | name, colon and 64 hex digits determine name and sum, whatever colons the name holds |
| Dedup.DedupCache.Lookup | internal/app/diagnose/dedup.go:80-89 | served exactly when enabled, present and fewer than window turns old |
| Dedup.DedupCache.Store | internal/app/diagnose/dedup.go:95-100 | stores exactly successes, replacing the entry and its turn |
| LoopSafety.PairedTranscript | internal/app/diagnose/loop.go:291-305 | on every return path the transcript is the request's followed by at most one pair per turn of tool calls and their results with equal ids in order; a well-formed transcript gains no orphan call |
| LoopSafety.ScopeSafety | internal/app/diagnose/loop.go:358-410 | over whole runs a call reaches tool or cache exactly when not denied by the filter of the latest success that carried one; each request advertises exactly what that filter admits |
| LoopSafety.ExecutionBound | internal/app/diagnose/dedup.go:80-100 | successful executions under one key are at least window turns apart, and at most ceil(turns/window) many |
| LoopSafety.HitsAreFresh | internal/app/diagnose/loop.go:411-416 | each cached reply repeats a fresh success of this run under the same key, fewer than window turns earlier |
| LoopSafety.RepeatsAreServed | internal/app/diagnose/dedup.go:80-89 | a call with a key is served from the cache exactly when the key succeeded in this run fewer than window turns before |
| LoopSafety.ToolsAreInOrder | internal/app/diagnose/loop.go:157-190 | every request offers what the filter leaves of the request's tools, then of the registered ones, in their order |
| RunEnds.RunEndsAsItsStreamDid | internal/app/diagnose/loop.go:175-447 | for a consumer that refuses nothing: each request carries the transcript so far; a turn that goes on commits exactly what its stream said and called, which its events told; the last turn reports the end its stream asks for, case by case over finish reasons, stream errors, the deadline, unusable calls and the turn cap |
| RunEnds.NoErrorIff | internal/app/diagnose/loop.go:249-278 | no error is returned exactly when the last stream finished by Stop, StopSequence or Length, or as cancelled or in error without an error; then finish and code are that finish and none |
| RunEnds.SaidIsVisible | internal/app/diagnose/loop.go:206-217 | the committed text is the concatenation of the turn's text events that are not thinking |
| Answers.EveryCallIsTold | internal/app/diagnose/loop.go:340-432 | over every run: calls are the announced ones in order, each made under its key, or with its input at its turn and place; each told result says what the call gave (output, error text, timeout, denial); committed results are the told ones; an unanswered call ended the run by a cancellation, a deadline with the total deadline fired, or a hit after the total context was over, and an answered one did none of these |
| Answers.DispatchAnswers | internal/app/diagnose/loop.go:527-544 | the same for one dispatch |
| EventGrammar.EveryRunFollowsTheGrammar | internal/app/diagnose/loop.go:175-447 | every run emits a prefix of the grammar of turns; unless the consumer refused the last event the word is complete and its finish event is the returned result; a refusal ends the run as cancelled if it is a context's error and otherwise in error |
| EventGrammar.FinishIsLast | internal/app/diagnose/loop.go:444-447 | nothing follows a finish event |
| Transparency.DedupIsTransparent | internal/app/diagnose/loop.go:345-432 | with the cache on or off a run gives the same transcript, finish, code, error, requests, scope history and events up to the Cached flag, if the calls this run announces have distinct keys and their cacheable tools are pure |
| LoopLog.RunGrows | internal/app/diagnose/loop.go:175-447 | the events of a run only grow |
| LoopLog.AnnounceGrows | internal/app/diagnose/loop.go:331-338 | when phase 1 completes every call of the turn is in the log |
| LoopLog.RunKnown | internal/app/diagnose/loop.go:296-305 | every call a run announces is of a registered tool |
| WriterProtocol.BufferedWriter.WriteContent | internal/platform/logger/buffered_writer.go:103-121 | a write is accepted exactly on an open writer, arms the timer and hands over at either threshold |
| WriterProtocol.BufferedWriter.ScheduleFlushLocked | internal/platform/logger/buffered_writer.go:159-171 | at most one timer is armed |
| WriterProtocol.BufferedWriter.TimerCallback | internal/platform/logger/buffered_writer.go:163-170 | a callback, stale or not, flushes an open writer and leaves a closed one alone |
| WriterProtocol.BufferedWriter.FlushAllLocked | internal/platform/logger/buffered_writer.go:137-154 | pending overflow, then buffer, are written and cleared |
| WriterProtocol.BufferedWriter.FlushDeferredLocked | internal/platform/logger/buffered_writer.go:188-203 | the buffer coalesces into a pending overflow or starts a drain |
| WriterProtocol.BufferedWriter.DrainCapture | internal/platform/logger/buffered_writer.go:219-240 | a drain exits exactly when nothing is pending and otherwise leaves the non-nil sentinel |
| WriterProtocol.BufferedWriter.DrainWrite | internal/platform/logger/buffered_writer.go:240-243 | the captured batch is written whole, outside the lock |
| WriterProtocol.BufferedWriter.DisposeLocked | internal/platform/logger/buffered_writer.go:250-258 | only the first Dispose closes and flushes |
| WriterSafety.EveryInterleavingConserves | internal/platform/logger/buffered_writer.go:103-262 | in every interleaving accepted contents are, as a multiset, those written, captured, pending and buffered; pending overflow has a live drain, a non-empty buffer a timer callback to come, both thresholds are respected, and after the first Dispose each content was written exactly once |
| WriterSafety.LeftAloneItDelivers | internal/platform/logger/buffered_writer.go:159-244 | from any reachable state timers and drains can take only a bounded number of steps, and when none is left everything accepted has been written |
| WriterSafety.HarmlessRunsKeepOrder | internal/platform/logger/buffered_writer.go:188-244 | if no flush meets a live drain it could disturb, at most one drain lives, exactly while an overflow is pending, and contents are written in the accepted order |
| WriterSafety.OrderIsKeptIff | internal/platform/logger/buffered_writer.go:103-244 | every state of a run has the accepted order and at most one drain exactly when, before each step, a write that reaches a threshold finds a non-nil pending overflow or no live drain, and what a flush writes commutes with what drains hold captured |
| WriterSafety.FlushKeepsClaimIff | internal/platform/logger/buffered_writer.go:137-154 | for one flush: order and single drain survive exactly when what it writes commutes with what drains hold captured |
| WriterSafety.AcceptKeepsClaimIff | internal/platform/logger/buffered_writer.go:103-121 | for one write: they survive exactly when it reaches no threshold, or finds a non-nil pending overflow or no live drain |
| WriterSafety.BookkeepingIsKeptIff | internal/platform/logger/buffered_writer.go:137-244 | a stronger invariant, in which an open writer's drain is also alive exactly while the pending overflow is non-nil, holds throughout a run exactly when no flush takes a pending overflow from a live drain and each commutes with what drains hold |
| WriterSafety.FlushKeepsBookkeepingIff | internal/platform/logger/buffered_writer.go:137-154 | the same stronger invariant for one flush |
| WriterSafety.WritesStartSecondDrain | internal/platform/logger/buffered_writer.go:188-203 | once a live drain has lost the pending overflow, at most maxBufferSize writes start a second drain |
| WriterSafety.HarmfulFlushSplitsTheDrain | internal/platform/logger/buffered_writer.go:139-144 | from every ordered state with a live drain and a pending overflow, a flush and some writes lead to two drains |
| WriterSafety.OrderFailsInGeneral | internal/platform/logger/buffered_writer.go:123-144 | a concrete run in which the second content is written before the first |
| WriterSafety.PunctualRunsHaveOneTimer | internal/platform/logger/buffered_writer.go:155-179 | if timers are stopped in time, the armed timer's callback is the only one outstanding |
| WriterSafety.WritesLeaveTheTimer | internal/platform/logger/buffered_writer.go:155-162 | a write that reaches no threshold leaves an armed timer as it is |
| WriterSafety.NoEmptyBatch | internal/platform/logger/buffered_writer.go:137-154 | writeFn is never handed an empty batch |
| LlmApp.Emitter.Emit | internal/app/cli/llmapp/loop_adapter.go:58-115 | each event's controls in order, the open text segment sealed before a call, a result and the finish |
| LlmApp.Emitter.Seal | internal/app/cli/llmapp/loop_adapter.go:58-69 | a segment is sent once and only if it has text |
| LlmApp.SnapshotBuilder.AddToolCall | internal/app/cli/llmapp/snapshot.go:54-60 | a timeline entry whose result is still open, indexed by id |
| LlmApp.SnapshotBuilder.AddToolResult | internal/app/cli/llmapp/snapshot.go:64-73 | fills the entry of the latest call of that id and no other |
| LlmApp.SnapshotBuilder.Seal | internal/app/cli/llmapp/snapshot.go:79-92 | the snapshot of all that was captured |
| LlmApp.TransitionToolUseState | internal/app/cli/llmapp/model.go:719-732 | exactly the latest tool-use node of the id changes state |
| Scrollback.ScrollbackIsTheProjection | internal/app/cli/llmapp/model.go:393-470 | for every interleaving on the bounded control channel and every preview, scrollback at the finish is the user's line and the ordered projection of the events; a snapshot is adopted exactly from uncancelled runs |
| Scrollback.FinishedRunShows | internal/app/cli/llmapp/model.go:456-470 | the same for the controls consumed one by one, with the snapshot's answer and timeline given by the events alone |
| Scrollback.PreviewIsIrrelevant | internal/app/cli/llmapp/model.go:396-424 | committed output does not depend on what the preview drained |
| Scrollback.PipeFolds | internal/app/cli/llmapp/loop_adapter.go:125-150 | producer and consumer steps commute: only the order of controls matters |
| Scrollback.SealedTextIsTheAnswer | internal/app/cli/llmapp/snapshot.go:48-52 | the sealed segments concatenate to the snapshot's final answer |
| Scrollback.AnsweredTurnsLeaveNothingRunning | internal/app/cli/llmapp/model.go:433-450 | with unique ids and names, no tool use is left running once the stream is between turns |
| Scrollback.FinishLeavesNothingRunning | internal/app/cli/llmapp/model.go:433-470 | the same when a finish follows |
| Scrollback.CancelMarkerIffSnapshotKept | internal/app/cli/llmapp/model.go:484-572 | the cancelled marker is rendered exactly when the earlier snapshot is kept, unless a DIAGNOSE code has its own marker |
| Scrollback.EndIsShown | internal/app/cli/llmapp/model.go:513-572 | the end of every run is shown after its last segment and its thinking: a DIAGNOSE code, an error's text, a refusal, a cancellation, an empty stream, a truncation no segment carries, stripped thoughts; and no marker exactly for every other end |
| EndToEnd.CompleteRun | internal/app/diagnose/loop.go:434-447 | a run whose consumer refuses nothing ends in exactly one finish event, with a finish reason, that is its returned result |
| EndToEnd.RunReachesTheScreen | internal/app/cli/llmapp/loop_adapter.go:125-150 | for every provider, tools and interleaving the screen shows the projection of exactly that run's events, and an uncancelled run's snapshot holds its visible text, turns, finish and code |
| EndToEnd.UninterruptedRunsLeaveNothingRunning | internal/app/diagnose/loop.go:246-447 | a run ended by anything but a cancellation or the total deadline, the turn cap included, leaves no tool call running on the screen if its call ids are never reused |
| Span.SpanCell.Set | internal/platform/logger/trace_context.go:105-122 | takes effect exactly once, atomically, after finitely many rival rounds; nothing on an ended span |
| Span.SpanCell.Record | internal/platform/logger/trace_context.go:127-138 | the same for RecordError |
| Span.SpanCell.Finish | internal/platform/logger/trace_context.go:142-156 | the same for End; the one that ends the span emits what it held just before |
| Span.EmitsOnce | internal/platform/logger/trace_context.go:140-156 | a history emits once if it holds an End and otherwise not at all |
| Span.LastWriterWins | internal/platform/logger/trace_context.go:102-138 | a span holds for each key the value last set, and the error last recorded, before the first End |
| Span.EmitsWhatIsHeld | internal/platform/logger/trace_context.go:140-156 | what is emitted is what the span held when it ended |
| Span.LateOpsDoNothing | internal/platform/logger/trace_context.go:105-156 | operations after an End change and emit nothing |
| SpanProtocol.EveryInterleavingLinearises | internal/platform/logger/trace_context.go:105-156 | under every interleaving the published state is the fold of the successful swaps in order, at most one End emits, it emits the fold before it, and no call retries more often than others succeed |
| SpanProtocol.FinishedRunsAreSequential | internal/platform/logger/trace_context.go:105-156 | when all calls have returned, one order of the calls, each exactly once, gives the final state and the emission |
| SpanProtocol.OrderRespectsRealTime | internal/platform/logger/trace_context.go:105-156 | in that order a call that returned before another first loaded comes before it |
| SpanProtocol.PublishedNeverChanges | internal/platform/logger/trace_context.go:102-122 | a published state and its attribute map never change, and an ended span stays as it is |
| SpanProtocol.ReturnedEndHasEmittedIff | internal/platform/logger/trace_context.go:140-156 | in all runs of some calls a returned End means the span was emitted, exactly when at most one of the calls is an End |
| SpanProtocol.EmittedUnlessEmitting | internal/platform/logger/trace_context.go:140-156 | in any state after a returned End the span has been emitted unless another End is between swap and emit |
| SpanProtocol.SecondEndMayReturnFirst | internal/platform/logger/trace_context.go:144-152 | among any calls with two Ends, one of them can return before anything is emitted |
| Uuid.Uuid7Clock.NextTimestampAndSeq | internal/platform/logger/uuid.go:104-132 | the clock, read as 4096 ticks to the millisecond, moves to the next tick or to a later reading, whichever is greater |
| Uuid.Uuid7Bytes | internal/platform/logger/uuid.go:68-88 | timestamp, version, sequence, variant and random tail in their places |
| Uuid.MasksAreArithmetic | internal/platform/logger/uuid.go:82-86 | the bit masks agree with the arithmetic used for the bytes |
| Uuid.StampIsBigEndian | internal/platform/logger/uuid.go:76-85 | the shifts lay the timestamp out big-endian |
| Uuid.FormatKeepsOrder | internal/platform/logger/uuid.go:135-150 | formatted ids compare as their bytes do |
| Uuid.Uuid7 | internal/platform/logger/uuid.go:68-88 | an id is made of the new tick, and its random bytes are read back from its text |
| Uuid.IdReadsBack | internal/platform/logger/uuid.go:68-150 | an id's text gives back its millisecond, its sequence number, version 7 and the RFC variant, with hyphens, '7' and the variant digit in their places |
| Uuid.IdsEqualIff | internal/platform/logger/uuid.go:68-88 | two ids of one tick are equal exactly when their 62 random bits are |
| Uuid.FormatReadsBack | internal/platform/logger/uuid.go:135-150 | the sixteen bytes are read back from the formatted text |
| Uuid.IdsStrictlyIncrease | internal/platform/logger/uuid.go:68-150 | for all clock readings, backward ones included, later ids sort strictly after earlier ones whatever their tails, while the time fits 48 bits |
| Uuid.DriftIsBounded | internal/platform/logger/uuid.go:94-132 | the embedded time neither lags behind the greatest reading nor leads it by more than calls/4096 milliseconds |
| SkillRoots.AssignPrecedence | internal/app/skills/roots.go:79-119 | precedence is the index in the kept roots, and all else is the spec's |
| SkillRoots.TurnAround | internal/app/skills/roots.go:105-110 | the in-place two-index reversal reverses |
| SkillRoots.RankingIsInjective | internal/app/skills/roots.go:72-119 | every listed directory once, at its highest key, in strictly increasing key order |
| SkillRoots.KeptAreTops | internal/app/skills/roots.go:96-104 | a key is kept exactly when it is the highest of its directory |
| SkillRoots.RanksIgnoreInputOrder | internal/app/skills/roots.go:72-78 | the rank of a directory does not depend on the order of the specs |
| SkillRoots.KeptIsChosen | internal/app/skills/roots.go:80-104 | of specs of a directory that rank alike the latest is kept |
| SkillNames.Resolve | internal/app/skills/namespace.go:66-104 | the loop over sorted names settles each name's group, with the names exactly those that occur |
| SkillNames.GroupByName | internal/app/skills/namespace.go:115-129 | groups in input order under strictly ascending names, nameless skills left out |
| SkillNames.TopByPrecedence | internal/app/skills/namespace.go:133-146 | the first skill of highest precedence, and whether another shares it |
| SkillNames.SettleName | internal/app/skills/namespace.go:69-102 | one name's active, shadowed and conflicting skills |
| SkillNames.EverySkillIsPlacedOnce | internal/app/skills/namespace.go:66-104 | each named skill is active, shadowed or in an unresolvable conflict, with exactly its multiplicity |
| SkillNames.EachNameHasOneOutcome | internal/app/skills/namespace.go:66-104 | each name is active once or in one unresolvable conflict, never both |
| SkillNames.WinnersRankAbove | internal/app/skills/namespace.go:82-101 | a winner ranks strictly above all it shadows, and they share its name |
| SkillNames.GroupKeepsOrder | internal/app/skills/namespace.go:112-129 | a group holds the skills of its name in input order |
| SkillNames.ListsAreInOrder | internal/app/skills/namespace.go:66-104 | active skills and conflicts are listed by strictly ascending name, and the shadowed skills are those of the shadowing conflicts, in that order |
| SkillNames.ActiveIgnoresInputOrder | internal/app/skills/namespace.go:112-129 | the active list is the same for every order of the input |
| Discovery.Discover | internal/app/skills/discovery.go:26-69 | the nested loops return, in the order of the scan, exactly the failures, the ignored skills and the warnings that single files and roots give, and resolve exactly the other valid skills |
| Discovery.ErrorsAreExact | internal/app/skills/discovery.go:37-58 | a failure is reported exactly for a failed scan and for a scanned file that cannot be loaded or is not valid, with that reason |
| Discovery.SkillsAreExact | internal/app/skills/discovery.go:44-63 | a skill is resolved or ignored exactly if it is loaded and valid, as the disabled names decide |
| Discovery.WarningsAreExact | internal/app/skills/discovery.go:49-52 | the warnings are exactly those of the files that load, valid or not |
| Discovery.EveryFileIsAccountedFor | internal/app/skills/discovery.go:36-68 | every scanned file and every failed root is counted exactly once among active, shadowed, unresolvable, ignored and errors |
| Discovery.TiedOnlyWithinARoot | internal/app/skills/discovery.go:36-68 | with distinct precedences a name is unresolvable exactly when two valid files of its highest root carry it |
| Discovery.AssignedRootsAreInjective | internal/app/skills/roots.go:72-119 | assigned roots have distinct precedences and directories |
| Frontmatter.SplitFrontmatter | internal/app/skills/parse.go:92-110 | the offset loop agrees with splitting a list of lines |
| Frontmatter.SplitIffFramed | internal/app/skills/parse.go:88-110 | a split yields (fm, body) exactly when the text is mark, fence line, fm, first closing fence line and body, byte for byte |
| Frontmatter.SplitIsFramed | internal/app/skills/parse.go:88-110 | success reassembles the input around the earliest closing fence |
| Frontmatter.FramedIsSplit | internal/app/skills/parse.go:88-110 | whatever is framed is read back exactly, also when the closing fence ends the text without a newline |
| Frontmatter.RoundTrip | internal/app/skills/parse.go:88-110 | every fm without a fence line, and every body, survive the plain form, with or without a byte-order mark |
| Frontmatter.FailsIffFenceMissing | internal/app/skills/parse.go:95-110 | no frontmatter exactly when the bytes after an optional mark do not begin with a fence line, unterminated exactly when they do but frame nothing |
| Frontmatter.FenceShape | internal/app/skills/parse.go:123-131 | a fence is three dashes at column 0 and then blanks only |
| Frontmatter.LinesJoin | internal/app/skills/parse.go:112-121 | reading by lines loses nothing |
| Frontmatter.LinesAreLines | internal/app/skills/parse.go:112-121 | a newline is only ever the last byte of a line, and only the last line may lack one |
| Report.Fence | internal/app/report/report.go:78-95 | the fence for the longest run of backticks |
| Report.FenceIsLeast | internal/app/report/report.go:74-95 | at least three, nowhere in the text, and no longer than that needs |
| Report.LongestRunIsLongest | internal/app/report/report.go:78-90 | the running maximum is the length of the longest run anywhere |
| Report.BlockReadsBack | internal/app/report/report.go:62-70 | a reader following section 4.5 of the CommonMark specification gets back info string, exactly the lines of the text, and exactly what follows the block |
| Report.SectionReadsBackIff | internal/app/report/report.go:54-77 | a reader that scans the whole section finds exactly every entry's input and summarised result, in order, at the offsets where they were written, if and only if no line of a heading opens a block |
| Report.OneLineNamesReadBack | internal/app/report/report.go:54-77 | so with every name on one line, whatever the inputs and results hold |
| Report.BrokenNameForges | internal/app/report/report.go:61-62 | a concrete name with a line break after which the reader finds other blocks |
| Markdown.ScanPasses | internal/app/report/report.go:54-72 | text none of whose lines opens a block adds none to a scan |
| Report.TextReadsBackIff | internal/app/report/report.go:69-70 | without its final line ending what the reader returns is the written text, less its carriage return if it ends in one |
| Report.WriteProcess | internal/app/report/report.go:54-72 | the section is its title and the parts of all entries in order |
| Report.Summarize | internal/app/report/summarize.go:32-62 | the branching over slices computes the summary |
| Report.SummaryKeeps | internal/app/report/summarize.go:32-62 | unchanged exactly within both limits; otherwise the most whole lines both limits allow, a prefix that stops at a newline, with kept and dropped adding up to the total |
| Report.OverlongLineIsCut | internal/app/report/summarize.go:50-55 | a first line over the limit keeps the most whole runes that fit |
| Report.LineFitInBytes | internal/app/report/summarize.go:66-79 | the number of leading lines that fit, the same as when sought from the longest down |
| Report.CutRunes | internal/app/report/summarize.go:83-93 | backs up to the last rune boundary within the limit |
| Report.CutKeepsRunesWhole | internal/app/report/summarize.go:81-93 | of encoded text a cut is the longest prefix of whole runes within the limit |
| Report.SplitJoins | internal/app/report/summarize.go:36-37 | joining undoes splitting, and no line holds a newline |
| Report.HeadingReadsBack | internal/app/report/report.go:60-62 | a heading gives back the number of its entry and its title |
| Report.TagsReadBackIff | internal/app/report/report.go:116-128 | a title gives back name, cached and error tag exactly when the name does not end like a tag the entry lacks |
| Report.SummaryCounts | internal/app/report/summarize.go:57-62 | the number in a shortened summary is the number of lines dropped |
| Report.MarkerReadsBack | internal/app/report/summarize.go:95-97 | the count of a marker is read back |
| History.Ring.Push | internal/app/cli/input/history.go:51-67 | the circular array holds the pushed entries, oldest evicted |
| History.Ring.At | internal/app/cli/input/history.go:71-78 | the entry of a logical index, oldest first, or nothing out of range |
| History.Ring.Clone | internal/app/cli/input/history.go:85-93 | a ring and storage of its own with the same contents |
| History.RingIsRecentHistory | internal/app/cli/input/history.go:43-67 | after any pushes the last 256 non-empty ones with consecutive repeats collapsed |
| DemoApp.Model.Update | internal/app/cli/demoapp/model.go:82-95 | the next model shows the specified step and nothing that existed changes, rings included |
| DemoApp.Model.HandleAction | internal/app/cli/demoapp/model.go:98-142 | each action's effect on a fresh model, with a cloned ring where one is pushed to |
| DemoApp.Model.ApplyHistoryPrev | internal/app/cli/demoapp/model.go:146-161 | one step back, the draft saved at the first |
| DemoApp.Model.ApplyHistoryNext | internal/app/cli/demoapp/model.go:165-179 | one step forward, or back to the draft |
| DemoApp.Session | internal/app/cli/demoapp/model.go:73-95 | at the end of any session every model it went through still shows its own state |
| DemoApp.AppendLogBounded | internal/app/cli/demoapp/model.go:185-193 | the last 256 entries |
| DemoApp.SessionsAreSound | internal/app/cli/demoapp/model.go:97-179 | in every session the cursor is inside the buffer, and while navigating the buffer is the ring's entry at the index |
| DemoApp.NavigationReads | internal/app/cli/demoapp/model.go:144-179 | any navigation keys read history and draft like a position moved up and down |
| DemoApp.LeavingRestores | internal/app/cli/demoapp/model.go:163-179 | leaving navigation restores the buffer and cursor saved when it began |
| DemoApp.RecallEndsAtTheEntry | internal/app/cli/demoapp/model.go:146-179 | a recalled entry is shown with the cursor at its end |
| DemoApp.TypingInserts | internal/app/cli/input/resolve.go:57-64 | a typed rune lands before the cursor and nothing else changes but navigation |
| DemoApp.BackspaceRemoves | internal/app/cli/input/resolve.go:65-73 | Backspace takes the rune before the cursor |
| DemoApp.DeleteRemoves | internal/app/cli/input/resolve.go:74-82 | Delete takes the rune behind the cursor |
| DemoApp.BackspaceUndoesTyping | internal/app/cli/input/resolve.go:57-73 | Backspace undoes typing |
| DemoApp.MovingMoves | internal/app/cli/input/move.go:60-87 | moving changes the cursor only, by one rune or to an end |
| DemoApp.CancelClears | internal/app/cli/demoapp/model.go:86-92 | cancelling clears the line and keeps history and log |
| DemoApp.HistoryIsWhatWasSubmitted | internal/app/cli/demoapp/model.go:121-130 | ring and log of any session are what was submitted in it |

## Left out

- Transparency.DedupIsTransparent: asks of the run's own calls that JSON and SHA-256 tell the inputs of one tool apart (no 64 hex digits could separate all strings) and that cacheable tools are functions of name and input; and that the total deadline does not fire at a dispatch and the consumer ignores the Cached flag.
- Timeouts of one request or one tool are errors the provider or the tool returns; clocks, durations and goroutine cancellation are not modelled.
- Scope's denial text quotes the tool name with Go's `%q`, which is a parameter.
- Immediate mode of the writer, and errors of `writeFn`: calls of `writeFn` are counted, not success on disk.
- `submit` beyond what starts a run: the request it builds, the bounded message history and the stream it opens.
- The token stream behind the preview, and the recovery of its residue when the stream closes early; a run cut off before its Finish control.
- `toolUseNames` is one Go map shared by successive chat models; here each model has its own value.
- Inheritance of trace ids in `StartSpan`, the sidecar record of a span, and spans without a state.
- The retry loops of `SpanCell` meet finitely many rival rounds; unbounded concurrency is in `SpanProtocol`, where a round may fail as often as others succeed.
- `uuid4`, and the degraded id when random bytes cannot be read.
- Skills: YAML decoding, the size and depth limits of `Parse`, the rules inside `Validate` (only that a valid name is not blank), and the deep copy of the `Extra` map.
- Directory scanning, git, files, terminal and HTTP input and output.
- `Report` covers the process section and its text functions; header, question, conclusion and redaction only join strings.
- Of Markdown only fenced code blocks (section 4.5 of the CommonMark specification) are read; the info string is not trimmed, and tabs are not expanded when a content line loses indentation.
- `View`, painting and key tables.
