/** From the diagnose loop to the screen: the events a run emits, through the producer, the
    control channel and the consumer, to the scrollback. */
module EndToEnd {
  import opened Prelude
  import opened Llm
  import opened DiagnoseLoop
  import opened EventGrammar
  import opened LoopLog
  import LlmApp
  import Scope
  import Scrollback

  predicate Named(t: Turned) { t.Halt? ==> t.finish != FinishUnset }

  lemma {:induction false} DispatchNamed(l: Loop, w: World, turn: nat, uses: seq<ToolUse>, run: Run, results: seq<ToolResult>)
    requires |results| <= |uses| && AllKnown(l, uses)
    ensures var r := DispatchFrom(l, w, turn, uses, run, results); r.Aborted? ==> Named(r.halt)
    decreases |uses| - |results|
  {
    if |results| < |uses| {
      var d := Dispatched(l, w, turn, |results|, uses[|results|], run);
      if d.Reply? {
        DispatchNamed(l, w, turn, uses, Emitted(d.run, ResultEvent(turn, d.result, d.cached)), results + [d.result]);
      }
    }
  }

  lemma SettleNamed(l: Loop, w: World, turn: nat, d: Drained)
    ensures Named(Settle(l, w, turn, d))
  {
    if d.finish == FinishToolUse && AllKnown(l, d.uses) && Announce(w, turn, d.uses, d.run).Announced? {
      DispatchNamed(l, w, turn, d.uses, Announce(w, turn, d.uses, d.run).run, []);
    }
    hide DispatchFrom, Announce;
  }

  lemma TurnNamed(l: Loop, w: World, tools: seq<ToolSchema>, turn: nat, run: Run)
    ensures Named(Turn(l, w, tools, turn, run))
  {
    hide Settle, Drain;
    forall d ensures Named(Settle(l, w, turn, d)) {
      SettleNamed(l, w, turn, d);
    }
  }

  /** Every run ends with a finish reason. */
  lemma {:induction false} RunsAreNamed(l: Loop, w: World, tools: seq<ToolSchema>, turn: nat, run: Run)
    requires 1 <= turn <= l.maxTurns + 1
    ensures RunFrom(l, w, tools, turn, run).result.finish != FinishUnset
    decreases l.maxTurns + 1 - turn
  {
    hide Turn;
    if turn <= l.maxTurns {
      TurnNamed(l, w, tools, turn, run);
      var t := Turn(l, w, tools, turn, run);
      if t.Continue? {
        RunsAreNamed(l, w, tools, turn + 1, t.run);
      }
    }
  }

  /** The events of a run whose consumer never refuses one: all but the last, and the finish. */
  lemma CompleteRun(l: Loop, w: World, req: Request) returns (es: seq<Event>, fin: Event)
    requires l.registry.Some? ==> RegistryOk(l.registry.value)
    requires forall h :: w.emitErr(h).None?
    ensures var o := RunSpec(l, w, req);
            && o.run.events == es + [fin] && (forall i :: 0 <= i < |es| ==> !es[i].Finish?)
            && fin == Finish(o.result.turns, o.result.finish, o.result.termCode, o.err) && o.result.finish != FinishUnset
  {
    EveryRunFollowsTheGrammar(l, w, req);
    RunsAreNamed(l, w, Offered(l, req), 1, Start(req));
    assert RunSpec(l, w, req).result.finish != FinishUnset;
    hide RunFrom, PhaseOf, RunSpec;
    var events := RunSpec(l, w, req).run.events;
    es, fin := events[..|events| - 1], events[|events| - 1];
    forall i | 0 <= i < |es| ensures !es[i].Finish? {
      if events[i].Finish? { FinishIsLast(events, i); }
    }
  }

  // ---------- runs that are not interrupted ----------

  function Front(events: seq<Event>): seq<Event> {
    if events == [] then [] else events[..|events| - 1]
  }

  /** A run ended by a cancellation or by the total deadline. */
  predicate Interrupted(err: Option<Error>) {
    err.Some? && (err.value.cause == ContextCanceled || err.value == ERR_TOTAL_TIMEOUT)
  }

  /** The total context fails only as a context does, and the consumer refuses nothing. */
  ghost predicate Calm(w: World) {
    && (forall t: nat, p: nat :: w.totalErr(t, p).Some? ==> w.totalErr(t, p).value.cause in {ContextCanceled, ContextDeadline})
    && forall h :: w.emitErr(h).None?
  }

  lemma {:induction false} AllAnnounced(w: World, turn: nat, uses: seq<ToolUse>, run: Run)
    requires Calm(w)
    ensures Announce(w, turn, uses, run).Announced?
  {
    if uses != [] {
      AllAnnounced(w, turn, uses[1..], Emitted(run, CallEvent(turn, uses[0])));
    }
  }

  lemma {:induction false} DispatchErrs(l: Loop, w: World, turn: nat, uses: seq<ToolUse>, run: Run, results: seq<ToolResult>)
    requires |results| <= |uses| && AllKnown(l, uses) && Calm(w)
    ensures var r := DispatchFrom(l, w, turn, uses, run, results); r.Aborted? ==> r.halt.Halt? && Interrupted(r.halt.err)
    decreases |uses| - |results|
  {
    if |results| < |uses| {
      var d := Dispatched(l, w, turn, |results|, uses[|results|], run);
      assert w.totalErr(turn, |results| + 1).Some? ==> w.totalErr(turn, |results| + 1).value.cause in {ContextCanceled, ContextDeadline};
      if d.Reply? {
        DispatchErrs(l, w, turn, uses, Emitted(d.run, ResultEvent(turn, d.result, d.cached)), results + [d.result]);
      }
    }
  }

  /** Once calls are announced, only an interruption ends the run before they are answered. */
  lemma SettleErrs(l: Loop, w: World, turn: nat, d: Drained)
    requires Calm(w)
    ensures var t := Settle(l, w, turn, d); t.Halt? && !Interrupted(t.err) ==> Front(t.run.events) == d.run.events
  {
    if d.finish == FinishToolUse && AllKnown(l, d.uses) {
      AllAnnounced(w, turn, d.uses, d.run);
      DispatchErrs(l, w, turn, d.uses, Announce(w, turn, d.uses, d.run).run, []);
    }
    hide DispatchFrom, Announce;
  }

  lemma TurnErrs(l: Loop, w: World, tools: seq<ToolSchema>, turn: nat, run: Run)
    requires 1 <= turn && PhaseOf(run.events) == Between(turn - 1) && Calm(w)
    ensures var t := Turn(l, w, tools, turn, run); t.Halt? && !Interrupted(t.err) ==> PhaseOf(Front(t.run.events)).Talking?
  {
    var begun := Emitted(run, TurnStart(turn));
    PhaseSnoc(run.events, TurnStart(turn));
    var request := Request(run.msgs, Scope.Narrowed(tools, run.filter));
    var asked := begun.(sent := begun.sent + [Sent(turn, |begun.calls|, begun.filter, request)]);
    hide PhaseOf, Settle, Drain, Interrupted;
    if w.stream(turn, request).Streamed? {
      var d0 := Drained(asked, "", [], FinishUnset, None, None);
      DrainTalks(w, turn, w.stream(turn, request).chunks, d0);
      var d := Drain(w, turn, w.stream(turn, request).chunks, d0);
      SettleErrs(l, w, turn, Promoted(d, w.stream(turn, request).streamErr, w.totalErr(turn, 0)));
    }
  }

  lemma {:induction false} RunErrs(l: Loop, w: World, tools: seq<ToolSchema>, turn: nat, run: Run)
    requires 1 <= turn <= l.maxTurns + 1 && PhaseOf(run.events) == Between(turn - 1) && Calm(w)
    ensures var o := RunFrom(l, w, tools, turn, run);
            !Interrupted(o.err) ==> PhaseOf(Front(o.run.events)).Talking? || PhaseOf(Front(o.run.events)).Between?
    decreases l.maxTurns + 1 - turn
  {
    hide Turn, PhaseOf, Interrupted, Calm;
    if turn > l.maxTurns {
      assert Front(RunFrom(l, w, tools, turn, run).run.events) == run.events;
    } else {
      TurnErrs(l, w, tools, turn, run);
      TurnTells(l, w, tools, turn, run);
      var t := Turn(l, w, tools, turn, run);
      if t.Continue? {
        RunErrs(l, w, tools, turn + 1, t.run);
      }
    }
  }

  /** Every run that is not interrupted, the turn cap included, leaves no tool call running on
      the screen, if the provider never reuses an id. */
  lemma UninterruptedRunsLeaveNothingRunning(l: Loop, w: World, req: Request, strip: bool)
    requires l.registry.Some? ==> RegistryOk(l.registry.value) && "" !in l.registry.value.tools
    requires Calm(w) && Scrollback.UniqueCalls(RunSpec(l, w, req).run.events)
    requires !Interrupted(RunSpec(l, w, req).err)
    ensures Scrollback.NothingRunning(Scrollback.Projection(strip, RunSpec(l, w, req).run.events))
  {
    var es, fin := CompleteRun(l, w, req);
    assert PhaseOf(Start(req).events) == Between(0);
    RunErrs(l, w, Offered(l, req), 1, Start(req));
    RunKnown(l, w, Offered(l, req), 1, Start(req));
    hide RunFrom, PhaseOf, Scrollback.Projection, Interrupted;
    var events := RunSpec(l, w, req).run.events;
    hide RunSpec;
    assert Front(events) == es && forall i :: 0 <= i < |es| ==> es[i] == events[i];
    Scrollback.FinishLeavesNothingRunning(strip, es, fin);
  }

  // ---------- to the screen ----------

  /** Whatever the provider and the tools do, and however producer, consumer and preview
      interleave, the user sees the projection of exactly what the run did, ended by the
      result that Run returned, and the report's snapshot is of that same run. */
  lemma RunReachesTheScreen(l: Loop, w: World, req: Request, strip: bool, userText: string, before: LlmApp.Model,
                            steps: seq<LlmApp.PipeStep>)
    requires l.registry.Some? ==> RegistryOk(l.registry.value)
    requires forall h :: w.emitErr(h).None?
    requires var sent := LlmApp.Pipe(LlmApp.AllControls(strip, userText, Scrollback.FRESH, RunSpec(l, w, req).run.events), [],
                                     LlmApp.Submit(before, userText));
             LlmApp.PipeCanRun(sent, steps) && LlmApp.PipeRun(sent, steps).toSend == [] && LlmApp.PipeRun(sent, steps).queue == []
    ensures var o := RunSpec(l, w, req);
            var events := o.run.events;
            var m := LlmApp.PipeRun(LlmApp.Pipe(LlmApp.AllControls(strip, userText, Scrollback.FRESH, events), [],
                                                LlmApp.Submit(before, userText)), steps).model;
            && m.scrollback == before.scrollback + [LlmApp.MessageNode(userText, LlmApp.SpeakerUser, false, false)]
                               + Scrollback.Projection(strip, events)
            && m.finishHandled
            && Scrollback.AssistantText(Scrollback.Projection(strip, events)) == Scrollback.Visible(events)
            && (!Scrollback.Cancellation(o.result.finish, o.err) ==>
                  && m.lastSnapshot.Some?
                  && m.lastSnapshot.value.finalAnswer == Scrollback.Visible(events)
                  && m.lastSnapshot.value.turns == o.result.turns
                  && m.lastSnapshot.value.finish == o.result.finish && m.lastSnapshot.value.termCode == o.result.termCode)
  {
    hide RunSpec, Scrollback.Projection, LlmApp.PipeRun, LlmApp.AllControls, LlmApp.PipeCanRun, Scrollback.AssistantText;
    var es, fin := CompleteRun(l, w, req);
    Scrollback.ScrollbackIsTheProjection(strip, userText, before, es, fin, steps);
    Scrollback.SealedTextIsTheAnswer(strip, es, fin);
    Scrollback.VisibleSnoc(es, fin);
    hide Scrollback.Visible, Scrollback.TimelineTo;
  }
}
