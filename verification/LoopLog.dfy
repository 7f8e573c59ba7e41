/** What the event log of a run keeps: it only grows, and each announced call is in it. */
module LoopLog {
  import opened Prelude
  import opened Llm
  import opened DiagnoseLoop
  import Scope

  /** Whether the tool calls of a log are all among `announced`. */
  ghost predicate Covers(announced: set<ToolUse>, events: seq<Event>) {
    forall i :: 0 <= i < |events| && events[i].CallEvent? ==> events[i].use in announced
  }

  lemma PrefixCovers(announced: set<ToolUse>, a: seq<Event>, b: seq<Event>)
    requires a <= b && Covers(announced, b)
    ensures Covers(announced, a)
  {
    forall i | 0 <= i < |a| && a[i].CallEvent? ensures a[i].use in announced {
      assert b[i] == a[i];
    }
  }

  lemma {:induction false} DrainGrows(w: World, turn: nat, chunks: seq<Chunk>, d: Drained)
    ensures d.run.events <= Drain(w, turn, chunks, d).run.events
  {
    if chunks != [] {
      DrainGrows(w, turn, chunks[1..], TakeFinish(chunks[0], TakeToken(w, turn, chunks[0], d)));
    }
  }

  lemma {:induction false} AnnounceGrows(w: World, turn: nat, uses: seq<ToolUse>, run: Run)
    ensures run.events <= Announce(w, turn, uses, run).run.events
    ensures Announce(w, turn, uses, run).Announced? ==>
              forall u :: u in uses ==> CallEvent(turn, u) in Announce(w, turn, uses, run).run.events
  {
    if uses != [] {
      var next := Emitted(run, CallEvent(turn, uses[0]));
      assert next.events[|run.events|] == CallEvent(turn, uses[0]);
      AnnounceGrows(w, turn, uses[1..], next);
      var r := Announce(w, turn, uses[1..], next).run;
      assert r.events[|run.events|] == CallEvent(turn, uses[0]);
      hide Announce;
      assert uses == [uses[0]] + uses[1..];
    }
  }

  lemma {:induction false} DispatchGrows(l: Loop, w: World, turn: nat, uses: seq<ToolUse>, run: Run, results: seq<ToolResult>)
    requires |results| <= |uses| && AllKnown(l, uses)
    ensures match DispatchFrom(l, w, turn, uses, run, results)
            case Answered(r, _) => run.events <= r.events
            case Aborted(halt) => run.events <= halt.run.events
    decreases |uses| - |results|
  {
    hide Dispatched;
    if |results| < |uses| {
      DispatchOneGrows(l, w, turn, |results|, uses[|results|], run);
      var d := Dispatched(l, w, turn, |results|, uses[|results|], run);
      if d.Reply? {
        DispatchGrows(l, w, turn, uses, Emitted(d.run, ResultEvent(turn, d.result, d.cached)), results + [d.result]);
      }
    }
  }

  lemma DispatchOneGrows(l: Loop, w: World, turn: nat, pos: nat, use: ToolUse, run: Run)
    requires Known(l, use.name)
    ensures match Dispatched(l, w, turn, pos, use, run)
            case Reply(next, _, _) => next.events == run.events
            case Ended(h) => run.events <= h.run.events
  { }

  lemma ToolTurnGrows(l: Loop, w: World, turn: nat, run: Run, text: string, uses: seq<ToolUse>)
    ensures run.events <= ToolTurn(l, w, turn, run, text, uses).run.events
    ensures AllKnown(l, uses) && Announce(w, turn, uses, run).Announced? ==>
              Announce(w, turn, uses, run).run.events <= ToolTurn(l, w, turn, run, text, uses).run.events
  {
    AnnounceGrows(w, turn, uses, run);
    if AllKnown(l, uses) && Announce(w, turn, uses, run).Announced? {
      DispatchGrows(l, w, turn, uses, Announce(w, turn, uses, run).run, []);
      hide DispatchFrom;
    }
    hide Announce;
  }

  lemma SettleGrows(l: Loop, w: World, turn: nat, d: Drained)
    ensures d.run.events <= Settle(l, w, turn, d).run.events
  {
    if d.finish == FinishToolUse {
      ToolTurnGrows(l, w, turn, d.run, d.text, d.uses);
    }
    hide ToolTurn;
  }

  lemma TurnGrows(l: Loop, w: World, tools: seq<ToolSchema>, turn: nat, run: Run)
    ensures run.events <= Turn(l, w, tools, turn, run).run.events
  {
    hide Drain, Settle;
    var begun := Emitted(run, TurnStart(turn));
    var request := Request(run.msgs, Scope.Narrowed(tools, run.filter));
    var asked := begun.(sent := begun.sent + [Sent(turn, |begun.calls|, begun.filter, request)]);
    if w.stream(turn, request).Streamed? {
      var d0 := Drained(asked, "", [], FinishUnset, None, None);
      DrainGrows(w, turn, w.stream(turn, request).chunks, d0);
      var d := Drain(w, turn, w.stream(turn, request).chunks, d0);
      SettleGrows(l, w, turn, Promoted(d, w.stream(turn, request).streamErr, w.totalErr(turn, 0)));
    }
  }

  lemma {:induction false} RunGrows(l: Loop, w: World, tools: seq<ToolSchema>, turn: nat, run: Run)
    requires 1 <= turn <= l.maxTurns + 1
    ensures run.events <= RunFrom(l, w, tools, turn, run).run.events
    decreases l.maxTurns + 1 - turn
  {
    hide Turn;
    if turn <= l.maxTurns {
      TurnGrows(l, w, tools, turn, run);
      var t := Turn(l, w, tools, turn, run);
      if t.Continue? {
        RunGrows(l, w, tools, turn + 1, t.run);
      }
    }
  }

  // ---------- only registered tools are announced ----------

  ghost predicate CallsKnown(l: Loop, events: seq<Event>) {
    forall i :: 0 <= i < |events| && events[i].CallEvent? ==> Known(l, events[i].use.name)
  }

  lemma KnownSnoc(l: Loop, events: seq<Event>, e: Event)
    requires CallsKnown(l, events) && (e.CallEvent? ==> Known(l, e.use.name))
    ensures CallsKnown(l, events + [e])
  { }

  lemma {:induction false} DrainKnown(l: Loop, w: World, turn: nat, chunks: seq<Chunk>, d: Drained)
    requires CallsKnown(l, d.run.events)
    ensures CallsKnown(l, Drain(w, turn, chunks, d).run.events)
  {
    hide CallsKnown;
    if chunks != [] {
      KnownSnoc(l, d.run.events, Text(turn, chunks[0].token, chunks[0].thinking));
      DrainKnown(l, w, turn, chunks[1..], TakeFinish(chunks[0], TakeToken(w, turn, chunks[0], d)));
    }
  }

  lemma {:induction false} AnnounceKnown(l: Loop, w: World, turn: nat, uses: seq<ToolUse>, run: Run)
    requires AllKnown(l, uses) && CallsKnown(l, run.events)
    ensures CallsKnown(l, Announce(w, turn, uses, run).run.events)
  {
    hide CallsKnown;
    if uses != [] {
      KnownSnoc(l, run.events, CallEvent(turn, uses[0]));
      AnnounceKnown(l, w, turn, uses[1..], Emitted(run, CallEvent(turn, uses[0])));
    }
  }

  lemma DispatchOneKnown(l: Loop, w: World, turn: nat, pos: nat, use: ToolUse, run: Run)
    requires Known(l, use.name) && CallsKnown(l, run.events)
    ensures match Dispatched(l, w, turn, pos, use, run)
            case Reply(next, _, _) => next.events == run.events
            case Ended(h) => CallsKnown(l, h.run.events)
  {
    var d := Dispatched(l, w, turn, pos, use, run);
    if d.Ended? {
      KnownSnoc(l, run.events, Finish(turn, d.halt.finish, d.halt.code, d.halt.err));
    }
    hide CallsKnown;
  }

  lemma {:induction false} DispatchKnown(l: Loop, w: World, turn: nat, uses: seq<ToolUse>, run: Run, results: seq<ToolResult>)
    requires |results| <= |uses| && AllKnown(l, uses) && CallsKnown(l, run.events)
    ensures match DispatchFrom(l, w, turn, uses, run, results)
            case Answered(r, _) => CallsKnown(l, r.events)
            case Aborted(halt) => CallsKnown(l, halt.run.events)
    decreases |uses| - |results|
  {
    hide CallsKnown, Dispatched;
    if |results| < |uses| {
      var use := uses[|results|];
      DispatchOneKnown(l, w, turn, |results|, use, run);
      var d := Dispatched(l, w, turn, |results|, use, run);
      if d.Reply? {
        KnownSnoc(l, run.events, ResultEvent(turn, d.result, d.cached));
        DispatchKnown(l, w, turn, uses, Emitted(d.run, ResultEvent(turn, d.result, d.cached)), results + [d.result]);
      }
    }
  }

  lemma SettleKnown(l: Loop, w: World, turn: nat, d: Drained)
    requires CallsKnown(l, d.run.events)
    ensures CallsKnown(l, Settle(l, w, turn, d).run.events)
  {
    hide CallsKnown;
    if d.finish == FinishToolUse && d.uses != [] && AllKnown(l, d.uses) {
      AnnounceKnown(l, w, turn, d.uses, d.run);
      var p := Announce(w, turn, d.uses, d.run);
      if p.Announced? {
        DispatchKnown(l, w, turn, d.uses, p.run, []);
      }
    } else {
      var t := Settle(l, w, turn, d);
      KnownSnoc(l, d.run.events, Finish(turn, t.finish, t.code, t.err));
    }
    hide Announce, DispatchFrom;
  }

  lemma TurnKnown(l: Loop, w: World, tools: seq<ToolSchema>, turn: nat, run: Run)
    requires CallsKnown(l, run.events)
    ensures CallsKnown(l, Turn(l, w, tools, turn, run).run.events)
  {
    hide Drain, Settle, CallsKnown;
    var begun := Emitted(run, TurnStart(turn));
    KnownSnoc(l, run.events, TurnStart(turn));
    var request := Request(run.msgs, Scope.Narrowed(tools, run.filter));
    var asked := begun.(sent := begun.sent + [Sent(turn, |begun.calls|, begun.filter, request)]);
    match w.stream(turn, request)
    case Refused(perr) =>
      var t := ClassifyTerminal(perr, w.totalErr(turn, 0));
      KnownSnoc(l, asked.events, Finish(turn, t.finish, t.code, Some(t.err)));
    case Streamed(chunks, streamErr) =>
      var d0 := Drained(asked, "", [], FinishUnset, None, None);
      DrainKnown(l, w, turn, chunks, d0);
      SettleKnown(l, w, turn, Promoted(Drain(w, turn, chunks, d0), streamErr, w.totalErr(turn, 0)));
  }

  /** Every call a run announces is of a registered tool. */
  lemma {:induction false} RunKnown(l: Loop, w: World, tools: seq<ToolSchema>, turn: nat, run: Run)
    requires 1 <= turn <= l.maxTurns + 1 && CallsKnown(l, run.events)
    ensures CallsKnown(l, RunFrom(l, w, tools, turn, run).run.events)
    decreases l.maxTurns + 1 - turn
  {
    hide Turn, CallsKnown;
    if turn > l.maxTurns {
      KnownSnoc(l, run.events, Finish(turn - 1, FinishError, Code(ERR_MAX_TURNS), Some(ERR_MAX_TURNS)));
    } else {
      TurnKnown(l, w, tools, turn, run);
      var t := Turn(l, w, tools, turn, run);
      if t.Continue? {
        RunKnown(l, w, tools, turn + 1, t.run);
      }
    }
  }
}
