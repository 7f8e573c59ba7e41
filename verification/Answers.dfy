/** What the model and the consumer are told about every tool call, over whole runs, and
    which calls end a run. */
module Answers {
  import opened Prelude
  import opened Llm
  import opened Dedup
  import opened DiagnoseLoop
  import opened LoopSafety
  import Hex
  import Scope

  // ---------- reading a log ----------

  /** The calls a log announces, in order. */
  function Asked(events: seq<Event>): seq<ToolUse> {
    if events == [] then []
    else
      Asked(events[..|events| - 1]) + if events[|events| - 1].CallEvent? then [events[|events| - 1].use] else []
  }

  datatype Answer = Answer(turn: nat, result: ToolResult, cached: bool)

  /** The results a log tells, in order. */
  function Told(events: seq<Event>): seq<Answer> {
    if events == [] then []
    else
      var last := events[|events| - 1];
      Told(events[..|events| - 1]) + if last.ResultEvent? then [Answer(last.turn, last.result, last.cached)] else []
  }

  lemma LogSnoc(events: seq<Event>, e: Event)
    ensures Asked(events + [e]) == Asked(events) + if e.CallEvent? then [e.use] else []
    ensures Told(events + [e]) == Told(events) + if e.ResultEvent? then [Answer(e.turn, e.result, e.cached)] else []
  {
    assert (events + [e])[..|events|] == events;
  }

  function UsesOf(calls: seq<Call>): seq<ToolUse> {
    seq(|calls|, i requires 0 <= i < |calls| => calls[i].use)
  }

  function ResultsOf(told: seq<Answer>): seq<ToolResult> {
    seq(|told|, i requires 0 <= i < |told| => told[i].result)
  }

  /** The tool results of a transcript, in order. */
  function Committed(msgs: seq<Message>): seq<ToolResult> {
    if msgs == [] then [] else Committed(msgs[..|msgs| - 1]) + ToolResults(msgs[|msgs| - 1])
  }

  /** How many of some calls were made in a turn. */
  function InTurn(calls: seq<Call>, turn: nat): nat {
    if calls == [] then 0 else InTurn(calls[..|calls| - 1], turn) + if calls[|calls| - 1].turn == turn then 1 else 0
  }

  // ---------- one call ----------

  /** The key a tool call has, if the cache may serve it. */
  function KeyFor(l: Loop, w: World, use: ToolUse): Option<string>
    requires Known(l, use.name)
  {
    if l.dedupEnabled && l.registry.value.tools[use.name].cacheable != Some(false) && w.marshal(use.input).Some? then
      Some(use.name + ":" + Hex.Encode(w.digest(w.marshal(use.input).value)))
    else None
  }

  /** A call was made as its tool use asks: under its key, and if it ran, with its input, in its
      turn and at its place among the calls of that turn. */
  ghost predicate MadeRight(l: Loop, w: World, before: seq<Call>, c: Call) {
    && Known(l, c.use.name)
    && (c.mode.Denied? ==> c.key.None?)
    && (!c.mode.Denied? ==> c.key == KeyFor(l, w, c.use))
    && (c.mode.Ran? ==> c.mode.outcome == w.execute(c.turn, InTurn(before, c.turn), c.use.name, c.use.input))
  }

  /** The total deadline has fired at a position of a turn. */
  predicate DeadlineFired(w: World, turn: nat, pos: nat) {
    w.totalErr(turn, pos).Some? && w.totalErr(turn, pos).value.cause == ContextDeadline
  }

  /** A call that ran into a cancellation, or into a deadline that is the total one. */
  predicate Fatal(w: World, c: Call, pos: nat) {
    && c.mode.Ran? && c.mode.outcome.Raised?
    && (c.mode.outcome.err.cause == ContextCanceled
        || (c.mode.outcome.err.cause == ContextDeadline && DeadlineFired(w, c.turn, pos + 1)))
  }

  ghost predicate Contains(s: string, t: string) {
    exists before, after :: s == before + t + after
  }

  /** The text of a denial: its code, the tool's name, and all that the scope allows. */
  ghost predicate DenialNames(w: World, c: Call, content: string) {
    && ("SKILL.SCOPE_TOOL_DENIED: tool " + w.quote(c.use.name)) <= content
    && c.scope.Some? && forall n :: n in c.scope.value ==> Contains(content, n)
  }

  /** What is told of a call: a tool's own output, fresh or cached; the text of its error; that
      it took too long; or that the scope denies it. All but an output are told as errors. */
  ghost predicate Tells(w: World, c: Call, a: Answer) {
    && a.turn == c.turn && a.result.toolUseId == c.use.id && (a.cached <==> c.mode.Hit?)
    && match c.mode
       case Denied => a.result.isError && DenialNames(w, c, a.result.content)
       case Hit(out) => a.result.content == out.content && a.result.isError == out.isError
       case Ran(Output(out)) => a.result.content == out.content && a.result.isError == out.isError
       case Ran(Raised(e)) =>
         a.result.isError && a.result.content == if e.cause == ContextDeadline then ERR_TOOL_TIMEOUT.text else e.text
  }

  /** A call that was answered: made right, survived, and told as it went. */
  ghost predicate AnsweredRight(l: Loop, w: World, before: seq<Call>, c: Call, a: Answer) {
    && MadeRight(l, w, before, c) && Tells(w, c, a)
    && !Fatal(w, c, InTurn(before, c.turn))
    && (c.mode.Hit? ==> w.totalErr(c.turn, InTurn(before, c.turn) + 1).None?)
  }

  ghost predicate Explained(l: Loop, w: World, calls: seq<Call>, told: seq<Answer>) {
    && |told| == |calls|
    && forall j :: 0 <= j < |calls| ==> AnsweredRight(l, w, calls[..j], calls[j], told[j])
  }

  lemma ExplainedSnoc(l: Loop, w: World, calls: seq<Call>, told: seq<Answer>, c: Call, a: Answer)
    requires Explained(l, w, calls, told) && AnsweredRight(l, w, calls, c, a)
    ensures Explained(l, w, calls + [c], told + [a])
  {
    hide AnsweredRight;
    forall j | 0 <= j < |calls + [c]| ensures AnsweredRight(l, w, (calls + [c])[..j], (calls + [c])[j], (told + [a])[j]) {
      assert (calls + [c])[..j] == calls[..j];
      if j == |calls| { assert calls[..j] == calls; }
    }
  }

  /** How a run ends that an error of a call, or of the total context, ends. */
  predicate CausedBy(e: Error, finish: FinishReason, code: string, err: Option<Error>) {
    if e.cause == ContextCanceled then finish == FinishCancelled && code == "" && err == Some(e)
    else if e.cause == ContextDeadline then finish == FinishError && code == "DIAGNOSE.TOTAL_TIMEOUT" && err == Some(ERR_TOTAL_TIMEOUT)
    else finish == FinishError && code == "" && err == Some(e)
  }

  /** The call after `calls` was stopped by the total context: the cache holds its answer, but
      the diagnosis is over. */
  ghost predicate StoppedHit(l: Loop, w: World, turn: nat, use: ToolUse, run: Run) {
    && Known(l, use.name) && !Bars(run.filter, use.name)
    && KeyFor(l, w, use).Some? && KeyFor(l, w, use).value in run.entries
    && turn - run.entries[KeyFor(l, w, use).value].turn < l.dedupWindow
    && w.totalErr(turn, InTurn(run.calls, turn) + 1).Some?
  }

  /** A call ended the run: it ran and was fatal, or it was a stopped hit. */
  ghost predicate EndedBy(l: Loop, w: World, turn: nat, before: seq<Call>, use: ToolUse, run: Run,
                          finish: FinishReason, code: string, err: Option<Error>) {
    if |run.calls| == |before| then
      && run.calls == before && StoppedHit(l, w, turn, use, run)
      && CausedBy(w.totalErr(turn, InTurn(before, turn) + 1).value, finish, code, err)
    else
      && |run.calls| == |before| + 1 && run.calls[..|before|] == before
      && var c := run.calls[|before|];
         && c.use == use && c.turn == turn && MadeRight(l, w, before, c) && Fatal(w, c, InTurn(before, turn))
         && CausedBy(c.mode.outcome.err, finish, code, err)
  }

  lemma KeysAgree(l: Loop, w: World, use: ToolUse)
    requires Known(l, use.name)
    ensures CallKey(l, w, use) == KeyFor(l, w, use)
  { }

  lemma {:induction false} JoinHas(names: seq<string>, name: string)
    requires name in names
    ensures Contains(Join(names), name)
  {
    if |names| == 1 {
      assert Join(names) == "" + name + "";
    } else if name == names[0] {
      assert Join(names) == "" + name + (", " + Join(names[1..]));
    } else {
      JoinHas(names[1..], name);
      assert names == [names[0]] + names[1..];
      ContainsAfter(names[0] + ", ", Join(names[1..]), "", name);
      assert names[0] + ", " + Join(names[1..]) + "" == Join(names);
    }
  }

  lemma ContainsAfter(before: string, s: string, after: string, t: string)
    requires Contains(s, t)
    ensures Contains(before + s + after, t)
  {
    var a, b :| s == a + t + b;
    assert before + s + after == (before + a) + t + (b + after);
  }

  /** A denial names the tool and every allowed one. */
  lemma DenialTold(w: World, name: string, allowed: seq<string>)
    ensures ("SKILL.SCOPE_TOOL_DENIED: tool " + w.quote(name)) <= DeniedContent(w, name, allowed)
    ensures forall n :: n in allowed ==> Contains(DeniedContent(w, name, allowed), n)
  {
    var head := "SKILL.SCOPE_TOOL_DENIED: tool " + w.quote(name) + " is not allowed in the active skill scope. Allowed: [";
    var tail := "] (+ Skill). Hint: use an allowed tool or invoke another skill.";
    assert DeniedContent(w, name, allowed) == head + Join(allowed) + tail;
    forall n | n in allowed ensures Contains(DeniedContent(w, name, allowed), n) {
      JoinHas(allowed, n);
      ContainsAfter(head, Join(allowed), tail, n);
    }
  }

  /** A dispatch that leaves a right answer. */
  ghost predicate RepliesRight(l: Loop, w: World, turn: nat, use: ToolUse, run: Run, next: Run, result: ToolResult, cached: bool) {
    && |next.calls| == |run.calls| + 1 && next.calls[..|run.calls|] == run.calls
    && next.calls[|run.calls|].use == use && next.calls[|run.calls|].turn == turn
    && AnsweredRight(l, w, run.calls, next.calls[|run.calls|], Answer(turn, result, cached))
    && next.events == run.events && next.msgs == run.msgs && next.sent == run.sent
  }

  /** A dispatch that ends the run. */
  ghost predicate HaltsRight(l: Loop, w: World, turn: nat, use: ToolUse, run: Run, last: Run,
                             finish: FinishReason, code: string, err: Option<Error>) {
    && EndedBy(l, w, turn, run.calls, use, last, finish, code, err)
    && last.events == run.events + [Finish(turn, finish, code, err)] && last.msgs == run.msgs && last.sent == run.sent
  }

  ghost predicate DispatchRight(l: Loop, w: World, turn: nat, use: ToolUse, run: Run, d: Replying) {
    && (d.Reply? ==> RepliesRight(l, w, turn, use, run, d.run, d.result, d.cached))
    && (d.Ended? ==> d.halt.Halt? && HaltsRight(l, w, turn, use, run, d.halt.run, d.halt.finish, d.halt.code, d.halt.err))
  }

  lemma DeniedAnswers(l: Loop, w: World, turn: nat, pos: nat, use: ToolUse, run: Run)
    requires Known(l, use.name) && InTurn(run.calls, turn) == pos && Scope.Denied(run.filter, use.name)
    ensures DispatchRight(l, w, turn, use, run, Dispatched(l, w, turn, pos, use, run))
  {
    DenialTold(w, use.name, run.filter.value);
    hide CallKey, KeyFor, DeniedContent, InTurn;
  }

  lemma HitAnswers(l: Loop, w: World, turn: nat, pos: nat, use: ToolUse, run: Run)
    requires Known(l, use.name) && InTurn(run.calls, turn) == pos && !Scope.Denied(run.filter, use.name)
    requires Served(l, run.entries, CallKey(l, w, use), turn)
    ensures DispatchRight(l, w, turn, use, run, Dispatched(l, w, turn, pos, use, run))
  {
    KeysAgree(l, w, use);
    hide CallKey, KeyFor, DeniedContent, InTurn;
  }

  lemma RanAnswers(l: Loop, w: World, turn: nat, pos: nat, use: ToolUse, run: Run)
    requires Known(l, use.name) && InTurn(run.calls, turn) == pos && !Scope.Denied(run.filter, use.name)
    requires !Served(l, run.entries, CallKey(l, w, use), turn)
    ensures DispatchRight(l, w, turn, use, run, Dispatched(l, w, turn, pos, use, run))
  {
    KeysAgree(l, w, use);
    hide CallKey, KeyFor, DeniedContent, ScopeAfter, EntriesAfter, InTurn, Served, StoppedHit;
  }

  /** One dispatch: a right answer, or the end of the run. */
  lemma DispatchAnswers(l: Loop, w: World, turn: nat, pos: nat, use: ToolUse, run: Run)
    requires Known(l, use.name) && InTurn(run.calls, turn) == pos
    ensures DispatchRight(l, w, turn, use, run, Dispatched(l, w, turn, pos, use, run))
  {
    hide Dispatched, DispatchRight, CallKey, Served, InTurn, Scope.Denied;
    if Scope.Denied(run.filter, use.name) {
      DeniedAnswers(l, w, turn, pos, use, run);
    } else if Served(l, run.entries, CallKey(l, w, use), turn) {
      HitAnswers(l, w, turn, pos, use, run);
    } else {
      RanAnswers(l, w, turn, pos, use, run);
    }
  }

  // ---------- a turn ----------

  /** Phase 2 after k of the announced calls `uses` of a turn; `done` are the results told
      before the turn. */
  ghost predicate Midway(l: Loop, w: World, turn: nat, uses: seq<ToolUse>, done: seq<ToolResult>, results: seq<ToolResult>, run: Run) {
    && |results| <= |uses|
    && Explained(l, w, run.calls, Told(run.events))
    && Asked(run.events) == UsesOf(run.calls) + uses[|results|..]
    && InTurn(run.calls, turn) == |results|
    && ResultsOf(Told(run.events)) == done + results
  }

  /** The end of a run: all calls but perhaps the last are answered right; unless the consumer
      refused an event, unanswered calls mean that a call ended the run. */
  ghost predicate EndsRight(l: Loop, w: World, turn: nat, run: Run, finish: FinishReason, code: string, err: Option<Error>) {
    var told, all := Told(run.events), Asked(run.events);
    && |told| <= |run.calls| <= |told| + 1 && |run.calls| <= |all|
    && UsesOf(run.calls) == all[..|run.calls|]
    && Explained(l, w, run.calls[..|told|], told)
    && (|run.calls| > |told| ==>
          EndedBy(l, w, turn, run.calls[..|told|], run.calls[|told|].use, run, finish, code, err))
    && ((forall h :: w.emitErr(h).None?) && |told| < |all| ==>
          EndedBy(l, w, turn, run.calls[..|told|], all[|told|], run, finish, code, err))
  }

  lemma UsesSnoc(calls: seq<Call>, next: seq<Call>, use: ToolUse, uses: seq<ToolUse>, k: nat)
    requires |next| == |calls| + 1 && next[..|calls|] == calls && next[|calls|].use == use
    requires k < |uses| && uses[k] == use
    ensures UsesOf(next) == UsesOf(calls) + [use]
    ensures UsesOf(calls) + uses[k..] == UsesOf(next) + uses[k + 1..]
  { }

  lemma CallsSnoc(calls: seq<Call>, next: seq<Call>)
    requires |next| == |calls| + 1 && next[..|calls|] == calls
    ensures next == calls + [next[|calls|]]
    ensures forall turn :: InTurn(next, turn) == InTurn(calls, turn) + if next[|calls|].turn == turn then 1 else 0
  { }

  /** A run that stops while a call is unanswered. */
  lemma StopsRight(l: Loop, w: World, turn: nat, uses: seq<ToolUse>, done: seq<ToolResult>, results: seq<ToolResult>, run: Run, h: Turned)
    requires Midway(l, w, turn, uses, done, results, run) && |results| < |uses|
    requires h.Halt? && HaltsRight(l, w, turn, uses[|results|], run, h.run, h.finish, h.code, h.err)
    ensures EndsRight(l, w, turn, h.run, h.finish, h.code, h.err)
    ensures ResultsOf(Told(h.run.events)) == done + results
  {
    LogSnoc(run.events, Finish(turn, h.finish, h.code, h.err));
    var told, all := Told(run.events), Asked(run.events);
    hide Explained, MadeRight, StoppedHit, Fatal, CausedBy, InTurn, Told, Asked;
    assert all + [] == all && told + [] == told;
    assert h.run.calls[..|told|] == run.calls;
    assert all[|told|] == uses[|results|];
    assert run.calls[..|run.calls|] == run.calls;
  }

  /** A run whose consumer refuses an event while calls may be unanswered. */
  lemma RefusedRight(l: Loop, w: World, turn: nat, run: Run, e: Error)
    requires w.emitErr(run.events).Some?
    requires Explained(l, w, run.calls, Told(run.events)) && UsesOf(run.calls) <= Asked(run.events)
    ensures EndsRight(l, w, turn, run, ClassifyEmitErr(e), "", Some(e))
  {
    assert run.calls[..|run.calls|] == run.calls;
    assert |UsesOf(run.calls)| == |run.calls|;
    hide Explained;
  }

  lemma AnswerTold(l: Loop, w: World, turn: nat, uses: seq<ToolUse>, done: seq<ToolResult>, results: seq<ToolResult>, run: Run,
                   next: Run, result: ToolResult, cached: bool)
    requires Midway(l, w, turn, uses, done, results, run) && |results| < |uses|
    requires RepliesRight(l, w, turn, uses[|results|], run, next, result, cached)
    ensures Midway(l, w, turn, uses, done, results + [result], Emitted(next, ResultEvent(turn, result, cached)))
  {
    hide Explained, AnsweredRight, InTurn, Told, Asked, UsesOf, ResultsOf;
    var c, a := next.calls[|run.calls|], Answer(turn, result, cached);
    LogSnoc(run.events, ResultEvent(turn, result, cached));
    UsesSnoc(run.calls, next.calls, uses[|results|], uses, |results|);
    CallsSnoc(run.calls, next.calls);
    ExplainedSnoc(l, w, run.calls, Told(run.events), c, a);
    ResultsSnoc(Told(run.events), a);
    assert Asked(run.events) + [] == Asked(run.events);
    Associate(done, results, [result]);
  }

  lemma ResultsSnoc(told: seq<Answer>, a: Answer)
    ensures ResultsOf(told + [a]) == ResultsOf(told) + [a.result]
  { }

  /** How phase 2 leaves the run. */
  ghost predicate PhaseRight(l: Loop, w: World, turn: nat, uses: seq<ToolUse>, done: seq<ToolResult>, run: Run, a: Answering) {
    if a.Answered? then
      |a.results| == |uses| && Midway(l, w, turn, uses, done, a.results, a.run) && a.run.msgs == run.msgs && a.run.sent == run.sent
    else
      && a.halt.Halt? && EndsRight(l, w, turn, a.halt.run, a.halt.finish, a.halt.code, a.halt.err)
      && a.halt.run.msgs == run.msgs && a.halt.run.sent == run.sent
      && done <= ResultsOf(Told(a.halt.run.events))
  }

  lemma PhaseDone(l: Loop, w: World, turn: nat, uses: seq<ToolUse>, done: seq<ToolResult>, results: seq<ToolResult>, run: Run)
    requires Midway(l, w, turn, uses, done, results, run) && |results| == |uses|
    ensures PhaseRight(l, w, turn, uses, done, run, Answered(run, results))
  {
    hide Midway;
  }

  lemma PhaseStops(l: Loop, w: World, turn: nat, uses: seq<ToolUse>, done: seq<ToolResult>, results: seq<ToolResult>, run: Run, h: Turned)
    requires Midway(l, w, turn, uses, done, results, run) && |results| < |uses|
    requires h.Halt? && HaltsRight(l, w, turn, uses[|results|], run, h.run, h.finish, h.code, h.err)
    ensures PhaseRight(l, w, turn, uses, done, run, Aborted(h))
  {
    StopsRight(l, w, turn, uses, done, results, run, h);
    hide Midway, EndsRight, EndedBy, ResultsOf, Told;
  }

  lemma PhaseRefused(l: Loop, w: World, turn: nat, uses: seq<ToolUse>, done: seq<ToolResult>, results: seq<ToolResult>, run: Run, e: Error)
    requires Midway(l, w, turn, uses, done, results, run) && w.emitErr(run.events) == Some(e)
    ensures PhaseRight(l, w, turn, uses, done, run, Aborted(EmitFailed(run, e)))
  {
    MidwayCounts(l, w, turn, uses, done, results, run);
    hide Midway, EndsRight, ResultsOf, UsesOf, Explained, Told, Asked;
    RefusedRight(l, w, turn, run, e);
  }

  lemma PhaseFrom(l: Loop, w: World, turn: nat, uses: seq<ToolUse>, done: seq<ToolResult>, run: Run, later: Run, a: Answering)
    requires PhaseRight(l, w, turn, uses, done, later, a) && later.msgs == run.msgs && later.sent == run.sent
    ensures PhaseRight(l, w, turn, uses, done, run, a)
  {
    hide Midway, EndsRight, ResultsOf, Told;
  }

  lemma {:induction false} PhaseTwoAnswers(l: Loop, w: World, turn: nat, uses: seq<ToolUse>, done: seq<ToolResult>, results: seq<ToolResult>, run: Run)
    requires AllKnown(l, uses) && Midway(l, w, turn, uses, done, results, run) && |results| <= |uses|
    ensures PhaseRight(l, w, turn, uses, done, run, DispatchFrom(l, w, turn, uses, run, results))
    decreases |uses| - |results|
  {
    hide Dispatched, Midway, PhaseRight, AnsweredRight, InTurn, Explained, UsesOf, ResultsOf, Told, Asked, HaltsRight;
    if |results| == |uses| {
      PhaseDone(l, w, turn, uses, done, results, run);
    } else {
      var k := |results|;
      MidwayCounts(l, w, turn, uses, done, results, run);
      DispatchAnswers(l, w, turn, k, uses[k], run);
      var d := Dispatched(l, w, turn, k, uses[k], run);
      if d.Ended? {
        PhaseStops(l, w, turn, uses, done, results, run, d.halt);
      } else {
        AnswerTold(l, w, turn, uses, done, results, run, d.run, d.result, d.cached);
        var told := Emitted(d.run, ResultEvent(turn, d.result, d.cached));
        if w.emitErr(told.events).Some? {
          PhaseRefused(l, w, turn, uses, done, results + [d.result], told, w.emitErr(told.events).value);
        } else {
          PhaseTwoAnswers(l, w, turn, uses, done, results + [d.result], told);
        }
        PhaseFrom(l, w, turn, uses, done, run, told, DispatchFrom(l, w, turn, uses, run, results));
      }
    }
  }

  lemma MidwayCounts(l: Loop, w: World, turn: nat, uses: seq<ToolUse>, done: seq<ToolResult>, results: seq<ToolResult>, run: Run)
    requires Midway(l, w, turn, uses, done, results, run)
    ensures InTurn(run.calls, turn) == |results| && ResultsOf(Told(run.events)) == done + results
    ensures Explained(l, w, run.calls, Told(run.events)) && UsesOf(run.calls) <= Asked(run.events)
  { }

  /** Between turns every call is answered, told and committed. */
  ghost predicate Settled(l: Loop, w: World, base: seq<Message>, turn: nat, run: Run) {
    && Explained(l, w, run.calls, Told(run.events))
    && Asked(run.events) == UsesOf(run.calls)
    && (forall i :: 0 <= i < |run.calls| ==> run.calls[i].turn <= turn)
    && base <= run.msgs && Committed(run.msgs[|base|..]) == ResultsOf(Told(run.events))
  }

  /** The end of a run, with what it has committed. */
  ghost predicate ClosedRight(l: Loop, w: World, base: seq<Message>, turn: nat, run: Run,
                              finish: FinishReason, code: string, err: Option<Error>) {
    && EndsRight(l, w, turn, run, finish, code, err)
    && base <= run.msgs && Committed(run.msgs[|base|..]) <= ResultsOf(Told(run.events))
  }

  /** Events that are neither calls nor results change nothing here. */
  lemma SettledSnoc(l: Loop, w: World, base: seq<Message>, turn: nat, run: Run, e: Event, sent: seq<Sent>)
    requires Settled(l, w, base, turn, run) && !e.CallEvent? && !e.ResultEvent?
    ensures Settled(l, w, base, turn, Emitted(run, e).(sent := sent))
  {
    LogSnoc(run.events, e);
    assert Asked(run.events) + [] == Asked(run.events) && Told(run.events) + [] == Told(run.events);
    hide Explained, Asked, Told, Committed;
  }

  lemma SettledCloses(l: Loop, w: World, base: seq<Message>, turn: nat, now: nat, run: Run, finish: FinishReason, code: string, err: Option<Error>)
    requires Settled(l, w, base, turn, run)
    ensures ClosedRight(l, w, base, now, run, finish, code, err)
  {
    assert run.calls[..|run.calls|] == run.calls;
    assert |UsesOf(run.calls)| == |run.calls| && UsesOf(run.calls)[..|run.calls|] == UsesOf(run.calls);
    hide Explained, Asked, Told, Committed;
  }

  lemma {:induction false} DrainSettled(l: Loop, w: World, base: seq<Message>, last: nat, turn: nat, chunks: seq<Chunk>, d: Drained)
    requires Settled(l, w, base, last, d.run)
    ensures Settled(l, w, base, last, Drain(w, turn, chunks, d).run)
  {
    hide Settled;
    if chunks != [] {
      var c := chunks[0];
      SettledSnoc(l, w, base, last, d.run, Text(turn, c.token, c.thinking), d.run.sent);
      DrainSettled(l, w, base, last, turn, chunks[1..], TakeFinish(c, TakeToken(w, turn, c, d)));
    }
  }

  /** While calls are announced. */
  ghost predicate Announces(l: Loop, w: World, done: seq<ToolResult>, uses: seq<ToolUse>, run: Run) {
    && Explained(l, w, run.calls, Told(run.events))
    && Asked(run.events) == UsesOf(run.calls) + uses
    && ResultsOf(Told(run.events)) == done
  }

  lemma AnnouncingSnoc(l: Loop, w: World, done: seq<ToolResult>, uses: seq<ToolUse>, run: Run, turn: nat, use: ToolUse)
    requires Announces(l, w, done, uses, run)
    ensures Announces(l, w, done, uses + [use], Emitted(run, CallEvent(turn, use)))
  {
    LogSnoc(run.events, CallEvent(turn, use));
    assert Told(run.events) + [] == Told(run.events);
    Associate(UsesOf(run.calls), uses, [use]);
    hide Explained, Asked, Told;
  }

  lemma {:induction false} AnnounceExplains(l: Loop, w: World, turn: nat, done: seq<ToolResult>, told: seq<ToolUse>, uses: seq<ToolUse>, run: Run)
    requires Announces(l, w, done, told, run)
    ensures var a := Announce(w, turn, uses, run);
            && (a.Announced? ==> Announces(l, w, done, told + uses, a.run))
            && (a.Unannounced? ==>
                  w.emitErr(a.run.events) == Some(a.err) && exists n :: 0 <= n <= |uses| && Announces(l, w, done, told + uses[..n], a.run))
    decreases uses
  {
    hide Announces;
    if uses == [] {
      assert told + uses == told;
    } else {
      AnnouncingSnoc(l, w, done, told, run, turn, uses[0]);
      var next := Emitted(run, CallEvent(turn, uses[0]));
      if w.emitErr(next.events).Some? {
        assert told + [uses[0]] == told + uses[..1];
      } else {
        AnnounceExplains(l, w, turn, done, told + [uses[0]], uses[1..], next);
        assert told + [uses[0]] + uses[1..] == told + uses;
        if Announce(w, turn, uses[1..], next).Unannounced? {
          var r := Announce(w, turn, uses[1..], next).run;
          var n :| 0 <= n <= |uses| - 1 && Announces(l, w, done, told + [uses[0]] + uses[1..][..n], r);
          assert told + [uses[0]] + uses[1..][..n] == told + uses[..n + 1];
        }
      }
    }
  }

  lemma ReadyForPhaseTwo(l: Loop, w: World, base: seq<Message>, turn: nat, uses: seq<ToolUse>, run: Run, r: Run)
    requires 1 <= turn && Settled(l, w, base, turn - 1, run)
    requires Announces(l, w, Committed(run.msgs[|base|..]), uses, r) && r.calls == run.calls
    ensures Midway(l, w, turn, uses, Committed(run.msgs[|base|..]), [], r)
  {
    NoneYet(run.calls, turn);
    assert uses[0..] == uses;
    assert Committed(run.msgs[|base|..]) + [] == Committed(run.msgs[|base|..]);
    hide Explained, Asked, Told, Committed, InTurn;
  }

  lemma {:induction false} NoneYet(calls: seq<Call>, turn: nat)
    requires forall i :: 0 <= i < |calls| ==> calls[i].turn < turn
    ensures InTurn(calls, turn) == 0
  {
    if calls != [] { NoneYet(calls[..|calls| - 1], turn); }
  }

  lemma CommitSettles(l: Loop, w: World, base: seq<Message>, turn: nat, text: string, uses: seq<ToolUse>, done: seq<ToolResult>,
                      results: seq<ToolResult>, run: Run)
    requires Midway(l, w, turn, uses, done, results, run) && |results| == |uses|
    requires base <= run.msgs && done == Committed(run.msgs[|base|..])
    requires forall i :: 0 <= i < |run.calls| ==> run.calls[i].turn <= turn
    ensures Settled(l, w, base, turn, run.(msgs := run.msgs + [AssistantTurn(text, uses), UserTurn(results)]))
  {
    hide Explained, Asked, Told, Committed, InTurn;
    var a, u := AssistantTurn(text, uses), UserTurn(results);
    UseBlocksRead(if text != "" then [TextBlock(text)] else [], uses);
    ResultBlocksRead(results);
    var tail := run.msgs[|base|..];
    CommittedTwo(tail, a, u);
    assert (run.msgs + [a, u])[|base|..] == tail + [a, u];
    assert uses[|results|..] == [] && UsesOf(run.calls) + [] == UsesOf(run.calls);
  }

  lemma CommittedTwo(msgs: seq<Message>, a: Message, u: Message)
    requires ToolResults(a) == []
    ensures Committed(msgs + [a, u]) == Committed(msgs) + ToolResults(u)
  {
    assert (msgs + [a, u])[..|msgs| + 1] == msgs + [a];
    assert (msgs + [a])[..|msgs|] == msgs;
    assert Committed(msgs) + [] == Committed(msgs);
  }

  lemma DispatchInTurn(l: Loop, w: World, turn: nat, pos: nat, use: ToolUse, run: Run)
    requires Known(l, use.name)
    ensures var d := Dispatched(l, w, turn, pos, use, run);
            d.Reply? ==> |d.run.calls| == |run.calls| + 1 && d.run.calls[..|run.calls|] == run.calls && d.run.calls[|run.calls|].turn == turn
  { }

  lemma {:induction false} CallsStayInTurn(l: Loop, w: World, turn: nat, uses: seq<ToolUse>, run: Run, results: seq<ToolResult>)
    requires |results| <= |uses| && AllKnown(l, uses)
    requires forall i :: 0 <= i < |run.calls| ==> run.calls[i].turn <= turn
    ensures var r := DispatchFrom(l, w, turn, uses, run, results);
            r.Answered? ==> forall i :: 0 <= i < |r.run.calls| ==> r.run.calls[i].turn <= turn
    decreases |uses| - |results|
  {
    hide Dispatched;
    if |results| < |uses| {
      var d := Dispatched(l, w, turn, |results|, uses[|results|], run);
      DispatchInTurn(l, w, turn, |results|, uses[|results|], run);
      if d.Reply? {
        CallsStayInTurn(l, w, turn, uses, Emitted(d.run, ResultEvent(turn, d.result, d.cached)), results + [d.result]);
      }
    }
  }

  /** How a turn leaves the run. */
  ghost predicate TurnRight(l: Loop, w: World, base: seq<Message>, turn: nat, t: Turned) {
    if t.Continue? then Settled(l, w, base, turn, t.run)
    else ClosedRight(l, w, base, turn, t.run, t.finish, t.code, t.err)
  }

  lemma FinishedRight(l: Loop, w: World, base: seq<Message>, last: nat, turn: nat, run: Run, finish: FinishReason, code: string, err: Option<Error>)
    requires Settled(l, w, base, last, run)
    ensures TurnRight(l, w, base, turn, Finished(run, turn, finish, code, err))
  {
    SettledSnoc(l, w, base, last, run, Finish(turn, finish, code, err), run.sent);
    hide Settled, ClosedRight;
    SettledCloses(l, w, base, last, turn, Emitted(run, Finish(turn, finish, code, err)), finish, code, err);
  }

  lemma UnannouncedRight(l: Loop, w: World, base: seq<Message>, turn: nat, run: Run, r: Run, e: Error, uses: seq<ToolUse>)
    requires 1 <= turn && Settled(l, w, base, turn - 1, run)
    requires w.emitErr(r.events) == Some(e) && r.msgs == run.msgs
    requires Announces(l, w, Committed(run.msgs[|base|..]), uses, r)
    ensures TurnRight(l, w, base, turn, EmitFailed(r, e))
  {
    RefusedRight(l, w, turn, r, e);
    hide Explained, EndsRight, Committed, Asked, Told;
  }

  lemma ToolTurnRight(l: Loop, w: World, base: seq<Message>, turn: nat, run: Run, text: string, uses: seq<ToolUse>)
    requires 1 <= turn && Settled(l, w, base, turn - 1, run)
    ensures TurnRight(l, w, base, turn, ToolTurn(l, w, turn, run, text, uses))
  {
    if uses == [] {
      FinishedRight(l, w, base, turn - 1, turn, run, FinishError, "", Some(ERR_DECODE_FAILED));
    } else if !AllKnown(l, uses) {
      FinishedRight(l, w, base, turn - 1, turn, run, FinishToolUse, Code(ERR_TOOL_UNKNOWN), Some(ERR_TOOL_UNKNOWN));
    } else {
      var done := Committed(run.msgs[|base|..]);
      AnnounceOnlyEmits(w, turn, uses, run);
      BeginAnnouncing(l, w, base, turn - 1, run);
      AnnounceExplains(l, w, turn, done, [], uses, run);
      hide Settled, Announces, Midway, TurnRight, ClosedRight, EndsRight, DispatchFrom, Announce, Committed;
      var a := Announce(w, turn, uses, run);
      if a.Unannounced? {
        var n :| 0 <= n <= |uses| && Announces(l, w, done, [] + uses[..n], a.run);
        UnannouncedRight(l, w, base, turn, run, a.run, a.err, [] + uses[..n]);
      } else {
        assert [] + uses == uses;
        ReadyForPhaseTwo(l, w, base, turn, uses, run, a.run);
        PhaseTwoAnswers(l, w, turn, uses, done, [], a.run);
        PhaseTwoRight(l, w, base, turn, text, uses, run, a.run);
      }
    }
  }

  lemma BeginAnnouncing(l: Loop, w: World, base: seq<Message>, turn: nat, run: Run)
    requires Settled(l, w, base, turn, run)
    ensures Announces(l, w, Committed(run.msgs[|base|..]), [], run) && base <= run.msgs
    ensures forall i :: 0 <= i < |run.calls| ==> run.calls[i].turn <= turn
  {
    assert UsesOf(run.calls) + [] == UsesOf(run.calls);
    hide Explained, Asked, Told, Committed;
  }

  lemma PhaseTwoRight(l: Loop, w: World, base: seq<Message>, turn: nat, text: string, uses: seq<ToolUse>, run: Run, r: Run)
    requires 1 <= turn && AllKnown(l, uses) && uses != []
    requires Announce(w, turn, uses, run) == Announced(r) && r == run.(events := r.events)
    requires base <= run.msgs && forall i :: 0 <= i < |run.calls| ==> run.calls[i].turn <= turn - 1
    requires PhaseRight(l, w, turn, uses, Committed(run.msgs[|base|..]), r, DispatchFrom(l, w, turn, uses, r, []))
    ensures TurnRight(l, w, base, turn, ToolTurn(l, w, turn, run, text, uses))
  {
    CallsStayInTurn(l, w, turn, uses, r, []);
    hide Midway, EndsRight, DispatchFrom, Announce, Settled, Committed;
    var a := DispatchFrom(l, w, turn, uses, r, []);
    if a.Answered? {
      CommitSettles(l, w, base, turn, text, uses, Committed(run.msgs[|base|..]), a.results, a.run);
    }
  }

  lemma SettleRight(l: Loop, w: World, base: seq<Message>, turn: nat, d: Drained)
    requires 1 <= turn && Settled(l, w, base, turn - 1, d.run)
    ensures TurnRight(l, w, base, turn, Settle(l, w, turn, d))
  {
    hide Settled, TurnRight, ToolTurn;
    if d.finish == FinishToolUse {
      ToolTurnRight(l, w, base, turn, d.run, d.text, d.uses);
    } else {
      var t := Settle(l, w, turn, d);
      FinishedRight(l, w, base, turn - 1, turn, d.run, t.finish, t.code, t.err);
    }
  }

  lemma RefusedTurnRight(l: Loop, w: World, base: seq<Message>, last: nat, turn: nat, run: Run, e: Error)
    requires Settled(l, w, base, last, run)
    ensures TurnRight(l, w, base, turn, EmitFailed(run, e))
  {
    SettledCloses(l, w, base, last, turn, run, ClassifyEmitErr(e), "", Some(e));
    hide Settled, ClosedRight;
  }

  lemma TurnAnswers(l: Loop, w: World, tools: seq<ToolSchema>, base: seq<Message>, turn: nat, run: Run)
    requires 1 <= turn && Settled(l, w, base, turn - 1, run)
    ensures TurnRight(l, w, base, turn, Turn(l, w, tools, turn, run))
  {
    hide Settled, TurnRight, Drain, Settle;
    var begun := Emitted(run, TurnStart(turn));
    SettledSnoc(l, w, base, turn - 1, run, TurnStart(turn), run.sent);
    assert begun.(sent := run.sent) == begun;
    if w.emitErr(begun.events).Some? {
      RefusedTurnRight(l, w, base, turn - 1, turn, begun, w.emitErr(begun.events).value);
    } else {
      var request := Request(run.msgs, Scope.Narrowed(tools, run.filter));
      var asked := begun.(sent := begun.sent + [Sent(turn, |begun.calls|, begun.filter, request)]);
      SettledSnoc(l, w, base, turn - 1, run, TurnStart(turn), asked.sent);
      match w.stream(turn, request)
      case Refused(perr) =>
        var t := ClassifyTerminal(perr, w.totalErr(turn, 0));
        FinishedRight(l, w, base, turn - 1, turn, asked, t.finish, t.code, Some(t.err));
      case Streamed(chunks, streamErr) =>
        var d0 := Drained(asked, "", [], FinishUnset, None, None);
        DrainSettled(l, w, base, turn - 1, turn, chunks, d0);
        var d := Drain(w, turn, chunks, d0);
        if d.emitErr.Some? {
          RefusedTurnRight(l, w, base, turn - 1, turn, d.run, d.emitErr.value);
        } else {
          SettleRight(l, w, base, turn, Promoted(d, streamErr, w.totalErr(turn, 0)));
        }
    }
  }

  lemma {:induction false} RunAnswers(l: Loop, w: World, tools: seq<ToolSchema>, base: seq<Message>, turn: nat, run: Run)
    requires 1 <= turn <= l.maxTurns + 1 && Settled(l, w, base, turn - 1, run)
    ensures var o := RunFrom(l, w, tools, turn, run);
            ClosedRight(l, w, base, o.result.turns, o.run, o.result.finish, o.result.termCode, o.err)
    decreases l.maxTurns + 1 - turn
  {
    hide Turn, Settled, ClosedRight;
    if turn > l.maxTurns {
      FinishedRight(l, w, base, turn - 1, turn - 1, run, FinishError, Code(ERR_MAX_TURNS), Some(ERR_MAX_TURNS));
    } else {
      TurnAnswers(l, w, tools, base, turn, run);
      var t := Turn(l, w, tools, turn, run);
      if t.Continue? {
        RunAnswers(l, w, tools, base, turn + 1, t.run);
      }
    }
  }

  // ---------- main result ----------

  /** Over every run, whatever the provider, the tools and the consumer do: the calls are the
      announced ones in order; each is made with its key and input at its place; each result
      told says what the call gave; the committed tool results are the told ones in order; and
      a call that is not told has ended the run, by a cancellation, by a deadline while the
      total deadline has fired, or because the total context was over when the cache held its
      answer. If the consumer refuses nothing, calls stay unanswered for no other reason. */
  lemma EveryCallIsTold(l: Loop, w: World, req: Request)
    requires l.registry.Some? ==> RegistryOk(l.registry.value)
    ensures var o := RunSpec(l, w, req);
            ClosedRight(l, w, req.messages, o.result.turns, o.run, o.result.finish, o.result.termCode, o.err)
  {
    var run := Start(req);
    assert run.msgs[|req.messages|..] == [];
    assert Settled(l, w, req.messages, 0, run);
    RunAnswers(l, w, Offered(l, req), req.messages, 1, run);
  }
}
