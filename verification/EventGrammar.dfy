/** The language of event streams a run can emit, as an automaton, and the proof that
    every run emits a word of it. */
module EventGrammar {
  import opened Prelude
  import opened Llm
  import opened DiagnoseLoop

  /** Where a stream of events has got to. `Between(t)`: turn t is fully answered. */
  datatype Phase =
    | Between(turn: nat)
    | Talking(turn: nat)
    | Calling(turn: nat, ids: seq<string>)
    | Answering(turn: nat, ids: seq<string>, answered: nat)
    | Done
    | Bad

  function Answer(turn: nat, ids: seq<string>, answered: nat, e: Event): Phase {
    if e.ResultEvent? && e.turn == turn && answered < |ids| && e.result.toolUseId == ids[answered] then
      if answered + 1 == |ids| then Between(turn) else Answering(turn, ids, answered + 1)
    else Bad
  }

  function Step(p: Phase, e: Event): Phase {
    match p
    case Between(t) =>
      if e.TurnStart? && e.turn == t + 1 then Talking(t + 1)
      else if e.Finish? && e.turn == t then Done else Bad
    case Talking(t) =>
      if e.turn != t then Bad
      else if e.Text? && e.text != "" then p
      else if e.CallEvent? then Calling(t, [e.use.id])
      else if e.Finish? then Done else Bad
    case Calling(t, ids) =>
      if e.CallEvent? && e.turn == t then Calling(t, ids + [e.use.id])
      else if e.Finish? && e.turn == t then Done
      else Answer(t, ids, 0, e)
    case Answering(t, ids, n) =>
      if e.Finish? && e.turn == t then Done else Answer(t, ids, n, e)
    case Done => Bad
    case Bad => Bad
  }

  function PhaseOf(events: seq<Event>): Phase {
    if events == [] then Between(0) else Step(PhaseOf(events[..|events| - 1]), events[|events| - 1])
  }

  lemma PhaseSnoc(events: seq<Event>, e: Event)
    ensures PhaseOf(events + [e]) == Step(PhaseOf(events), e)
  {
    assert (events + [e])[..|events|] == events;
  }

  /** Either the consumer was told exactly how the run ended, or it refused the last event. */
  ghost predicate EndOk(w: World, events: seq<Event>, turn: nat, finish: FinishReason, code: string, err: Option<Error>) {
    var p := PhaseOf(events);
    if p == Done then events != [] && events[|events| - 1] == Finish(turn, finish, code, err)
    else p != Bad && w.emitErr(events).Some? && err == w.emitErr(events) && RefusedAs(err.value, finish, code)
  }

  /** How a run ends when the consumer refuses an event: cancelled if the consumer's context is
      done, and otherwise in error. */
  predicate RefusedAs(e: Error, finish: FinishReason, code: string) {
    finish == (if e.cause == ContextCanceled || e.cause == ContextDeadline then FinishCancelled else FinishError) && code == ""
  }

  ghost predicate HaltOk(w: World, turn: nat, t: Turned) {
    t.Halt? ==> EndOk(w, t.run.events, turn, t.finish, t.code, t.err)
  }

  /** A turn ends the run as told, or leaves all its calls answered. */
  ghost predicate TurnOk(w: World, turn: nat, t: Turned) {
    HaltOk(w, turn, t) && (t.Continue? ==> PhaseOf(t.run.events) == Between(turn))
  }

  lemma FinishedOk(w: World, run: Run, turn: nat, finish: FinishReason, code: string, err: Option<Error>)
    requires var p := PhaseOf(run.events); (p.Talking? || p.Calling? || p.Answering? || p.Between?) && p.turn == turn
    ensures HaltOk(w, turn, Finished(run, turn, finish, code, err))
  {
    PhaseSnoc(run.events, Finish(turn, finish, code, err));
  }

  lemma {:induction false} DrainTalks(w: World, turn: nat, chunks: seq<Chunk>, d: Drained)
    requires PhaseOf(d.run.events) == Talking(turn) && d.emitErr.None?
    ensures var r := Drain(w, turn, chunks, d);
            PhaseOf(r.run.events) == Talking(turn) && (r.emitErr.Some? ==> r.emitErr == w.emitErr(r.run.events))
  {
    if chunks != [] {
      var c := chunks[0];
      PhaseSnoc(d.run.events, Text(turn, c.token, c.thinking));
      var t := TakeToken(w, turn, c, d);
      if t.emitErr.None? {
        DrainTalks(w, turn, chunks[1..], TakeFinish(c, t));
      }
    }
  }

  function Ids(uses: seq<ToolUse>): seq<string> {
    seq(|uses|, i requires 0 <= i < |uses| => uses[i].id)
  }

  ghost predicate AnnouncedSoFar(turn: nat, ids: seq<string>, run: Run) {
    PhaseOf(run.events) == if ids == [] then Talking(turn) else Calling(turn, ids)
  }

  lemma {:induction false} AnnounceCallsAll(w: World, turn: nat, uses: seq<ToolUse>, run: Run, told: seq<string>)
    requires AnnouncedSoFar(turn, told, run)
    ensures match Announce(w, turn, uses, run)
            case Announced(r) => AnnouncedSoFar(turn, told + Ids(uses), r)
            case Unannounced(r, e) => PhaseOf(r.events) != Done && PhaseOf(r.events) != Bad && w.emitErr(r.events) == Some(e)
  {
    if uses == [] {
      assert told + Ids(uses) == told;
    } else {
      var e := CallEvent(turn, uses[0]);
      PhaseSnoc(run.events, e);
      assert told + [uses[0].id] + Ids(uses[1..]) == told + Ids(uses);
      if w.emitErr(Emitted(run, e).events).None? {
        AnnounceCallsAll(w, turn, uses[1..], Emitted(run, e), told + [uses[0].id]);
      }
    }
  }

  /** Phase 2 has answered the first n of the announced calls. */
  ghost predicate AnsweredSoFar(turn: nat, ids: seq<string>, n: nat, run: Run) {
    var p := PhaseOf(run.events);
    if n == |ids| then p == Between(turn)
    else if n == 0 then p == Calling(turn, ids)
    else p == Answering(turn, ids, n)
  }

  lemma AnswersNext(turn: nat, ids: seq<string>, n: nat, run: Run, result: ToolResult, cached: bool)
    requires n < |ids| && result.toolUseId == ids[n]
    requires AnsweredSoFar(turn, ids, n, run)
    ensures AnsweredSoFar(turn, ids, n + 1, Emitted(run, ResultEvent(turn, result, cached)))
  {
    PhaseSnoc(run.events, ResultEvent(turn, result, cached));
  }

  /** A dispatch emits nothing itself, except the Finish event of a fatal outcome. */
  lemma DispatchShape(l: Loop, w: World, turn: nat, pos: nat, use: ToolUse, run: Run)
    requires Known(l, use.name)
    ensures match Dispatched(l, w, turn, pos, use, run)
            case Reply(next, result, _) => next.events == run.events && result.toolUseId == use.id
            case Ended(h) => h.Halt? && h.run.events == run.events + [Finish(turn, h.finish, h.code, h.err)]
  { }

  lemma DispatchTells(l: Loop, w: World, turn: nat, uses: seq<ToolUse>, pos: nat, run: Run)
    requires pos < |uses| && Known(l, uses[pos].name)
    requires AnsweredSoFar(turn, Ids(uses), pos, run)
    ensures match Dispatched(l, w, turn, pos, uses[pos], run)
            case Reply(next, result, cached) =>
              AnsweredSoFar(turn, Ids(uses), pos + 1, Emitted(next, ResultEvent(turn, result, cached)))
            case Ended(h) => h.Halt? && HaltOk(w, turn, h)
  {
    DispatchShape(l, w, turn, pos, uses[pos], run);
    match Dispatched(l, w, turn, pos, uses[pos], run)
    case Reply(next, result, cached) => AnswersNext(turn, Ids(uses), pos, next, result, cached);
    case Ended(h) => FinishedOk(w, run, turn, h.finish, h.code, h.err);
  }

  lemma AnswerRefused(w: World, turn: nat, ids: seq<string>, n: nat, run: Run, e: Error)
    requires AnsweredSoFar(turn, ids, n, run) && w.emitErr(run.events) == Some(e)
    ensures HaltOk(w, turn, EmitFailed(run, e))
  { }

  lemma {:induction false} PhaseTwoTells(l: Loop, w: World, turn: nat, uses: seq<ToolUse>, run: Run, results: seq<ToolResult>)
    requires |results| <= |uses| && uses != [] && AllKnown(l, uses)
    requires AnsweredSoFar(turn, Ids(uses), |results|, run)
    ensures match DispatchFrom(l, w, turn, uses, run, results)
            case Answered(r, _) => PhaseOf(r.events) == Between(turn)
            case Aborted(halt) => halt.Halt? && HaltOk(w, turn, halt)
    decreases |uses| - |results|
  {
    hide Dispatched, HaltOk, PhaseOf;
    if |results| == |uses| {
      assert AnsweredSoFar(turn, Ids(uses), |results|, run);
    } else {
      var use := uses[|results|];
      assert Known(l, use.name);
      DispatchTells(l, w, turn, uses, |results|, run);
      match Dispatched(l, w, turn, |results|, use, run)
      case Ended(_) =>
      case Reply(next, result, cached) =>
        var told := Emitted(next, ResultEvent(turn, result, cached));
        match w.emitErr(told.events)
        case Some(e) => AnswerRefused(w, turn, Ids(uses), |results| + 1, told, e);
        case None => PhaseTwoTells(l, w, turn, uses, told, results + [result]);
    }
  }

  lemma SettleTells(l: Loop, w: World, turn: nat, d: Drained)
    requires PhaseOf(d.run.events) == Talking(turn)
    ensures TurnOk(w, turn, Settle(l, w, turn, d))
  {
    hide Announce, DispatchFrom;
    var t := Settle(l, w, turn, d);
    if d.finish != FinishToolUse || d.uses == [] || !AllKnown(l, d.uses) {
      FinishedOk(w, d.run, turn, t.finish, t.code, t.err);
    } else {
      AnnounceCallsAll(w, turn, d.uses, d.run, []);
      assert [] + Ids(d.uses) == Ids(d.uses);
      var a := Announce(w, turn, d.uses, d.run);
      if a.Announced? {
        PhaseTwoTells(l, w, turn, d.uses, a.run, []);
      }
    }
  }

  lemma TurnTells(l: Loop, w: World, tools: seq<ToolSchema>, turn: nat, run: Run)
    requires 1 <= turn && PhaseOf(run.events) == Between(turn - 1)
    ensures TurnOk(w, turn, Turn(l, w, tools, turn, run))
  {
    hide Settle, Drain;
    PhaseSnoc(run.events, TurnStart(turn));
    var begun := Emitted(run, TurnStart(turn));
    if w.emitErr(begun.events).None? {
      var request := Request(run.msgs, Scope.Narrowed(tools, run.filter));
      var asked := begun.(sent := begun.sent + [Sent(turn, |begun.calls|, begun.filter, request)]);
      match w.stream(turn, request)
      case Refused(perr) =>
        var t := ClassifyTerminal(perr, w.totalErr(turn, 0));
        FinishedOk(w, asked, turn, t.finish, t.code, Some(t.err));
      case Streamed(chunks, streamErr) =>
        var d0 := Drained(asked, "", [], FinishUnset, None, None);
        DrainTalks(w, turn, chunks, d0);
        var d := Drain(w, turn, chunks, d0);
        if d.emitErr.None? {
          SettleTells(l, w, turn, Promoted(d, streamErr, w.totalErr(turn, 0)));
        }
    }
  }

  lemma {:induction false} RunTells(l: Loop, w: World, tools: seq<ToolSchema>, turn: nat, run: Run)
    requires 1 <= turn <= l.maxTurns + 1
    requires PhaseOf(run.events) == Between(turn - 1)
    ensures var o := RunFrom(l, w, tools, turn, run);
            EndOk(w, o.run.events, o.result.turns, o.result.finish, o.result.termCode, o.err)
    decreases l.maxTurns + 1 - turn
  {
    hide Turn;
    if turn > l.maxTurns {
      FinishedOk(w, run, turn - 1, FinishError, Code(ERR_MAX_TURNS), Some(ERR_MAX_TURNS));
    } else {
      TurnTells(l, w, tools, turn, run);
      var t := Turn(l, w, tools, turn, run);
      if t.Continue? {
        RunTells(l, w, tools, turn + 1, t.run);
      }
    }
  }

  /** Every run emits a prefix of the grammar; unless the consumer refused its last event
      the word is complete, and then its single Finish event, which is last, reports
      exactly the result that Run returns. */
  lemma EveryRunFollowsTheGrammar(l: Loop, w: World, req: Request)
    requires l.registry.Some? ==> RegistryOk(l.registry.value)
    ensures var o := RunSpec(l, w, req);
            var events := o.run.events;
            && PhaseOf(events) != Bad
            && (PhaseOf(events) == Done ==>
                  events != [] && events[|events| - 1] == Finish(o.result.turns, o.result.finish, o.result.termCode, o.err))
            && (PhaseOf(events) != Done ==>
                  && w.emitErr(events).Some? && o.err == w.emitErr(events)
                  && RefusedAs(o.err.value, o.result.finish, o.result.termCode))
  {
    RunTells(l, w, Offered(l, req), 1, Start(req));
  }

  lemma {:induction false} AfterFinish(events: seq<Event>, i: nat)
    requires i < |events| && events[i].Finish?
    ensures PhaseOf(events) == Done || PhaseOf(events) == Bad
  {
    if i < |events| - 1 {
      AfterFinish(events[..|events| - 1], i);
    }
  }

  /** The grammar allows nothing after a Finish. */
  lemma {:induction false} FinishIsLast(events: seq<Event>, i: nat)
    requires i < |events| && events[i].Finish? && PhaseOf(events) != Bad
    ensures i == |events| - 1
  {
    var front := events[..|events| - 1];
    if i < |events| - 1 {
      AfterFinish(front, i);
    }
  }
}
