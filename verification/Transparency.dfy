/** Caching tool results changes nothing but the Cached flag of result events. */
module Transparency {
  import opened Prelude
  import opened Llm
  import opened Dedup
  import opened DiagnoseLoop
  import opened LoopLog
  import Scope

  function Uncached(l: Loop): Loop {
    l.(dedupEnabled := false)
  }

  function Strip(e: Event): Event {
    if e.ResultEvent? then e.(cached := false) else e
  }

  function Strips(events: seq<Event>): seq<Event> {
    seq(|events|, i requires 0 <= i < |events| => Strip(events[i]))
  }

  lemma StripsSnoc(events: seq<Event>, e: Event)
    ensures Strips(events + [e]) == Strips(events) + [Strip(e)]
  { }

  /** A call the cache may serve: its tool does not opt out and its input has a key. */
  predicate Cacheable(l: Loop, w: World, name: string, input: Input) {
    Known(l, name) && l.registry.value.tools[name].cacheable != Some(false) && w.marshal(input).Some?
  }

  function KeyOf(w: World, name: string, input: Input): string
    requires w.marshal(input).Some?
  {
    Key(name, w.digest(w.marshal(input).value))
  }

  /** Cacheable tools are functions of name and input on these calls; other tools may depend
      on the turn and call position in any way. */
  ghost predicate CacheablesArePure(l: Loop, w: World, announced: set<ToolUse>) {
    forall t: nat, p: nat, u :: u in announced && Cacheable(l, w, u.name, u.input) ==>
      w.execute(t, p, u.name, u.input) == w.execute(0, 0, u.name, u.input)
  }

  /** JSON and SHA-256 keep these calls of each tool apart. */
  ghost predicate CollisionFree(w: World, announced: set<ToolUse>) {
    forall a, b | a in announced && b in announced && a.name == b.name && w.marshal(a.input).Some? && w.marshal(b.input).Some? ::
      w.digest(w.marshal(a.input).value) == w.digest(w.marshal(b.input).value) ==> a.input == b.input
  }

  /** The total deadline is not seen expired at a dispatch of any turn the loop may take. */
  ghost predicate NoDeadline(l: Loop, w: World) {
    forall t: nat, p: nat :: t <= l.maxTurns && 1 <= p ==> w.totalErr(t, p).None?
  }

  /** The consumer accepts or refuses events without looking at the Cached flag. */
  ghost predicate CacheBlind(w: World) {
    forall es, es' :: Strips(es) == Strips(es') ==> w.emitErr(es) == w.emitErr(es')
  }

  ghost predicate Fair(l: Loop, w: World, announced: set<ToolUse>) {
    CacheablesArePure(l, w, announced) && CollisionFree(w, announced) && NoDeadline(l, w) && CacheBlind(w)
  }

  // ---------- the simulation ----------

  ghost predicate SameCall(a: Call, b: Call) {
    a.turn == b.turn && a.use == b.use && a.scope == b.scope && (a.mode.Denied? <==> b.mode.Denied?)
  }

  /** Two runs that differ at most in what they serve from the cache. */
  ghost predicate Alike(a: Run, b: Run) {
    && a.msgs == b.msgs
    && a.filter == b.filter
    && a.sent == b.sent
    && Strips(a.events) == Strips(b.events)
    && |a.calls| == |b.calls|
    && forall i :: 0 <= i < |a.calls| ==> SameCall(a.calls[i], b.calls[i])
  }

  ghost predicate AlikeTurns(a: Turned, b: Turned) {
    && Alike(a.run, b.run)
    && (a.Halt? <==> b.Halt?)
    && (a.Halt? ==> a.finish == b.finish && a.code == b.code && a.err == b.err)
  }

  /** What the cache holds under a key is what every call of that key would return. */
  ghost predicate CacheTrue(l: Loop, w: World, announced: set<ToolUse>, entries: map<string, Entry>) {
    forall u :: u in announced && Cacheable(l, w, u.name, u.input) && KeyOf(w, u.name, u.input) in entries ==>
      && w.execute(0, 0, u.name, u.input) == Output(entries[KeyOf(w, u.name, u.input)].out)
      && !entries[KeyOf(w, u.name, u.input)].out.isError
  }

  lemma StoringKeepsTruth(l: Loop, w: World, announced: set<ToolUse>, entries: map<string, Entry>, use: ToolUse, e: Entry)
    requires CacheTrue(l, w, announced, entries) && CollisionFree(w, announced)
    requires use in announced && Cacheable(l, w, use.name, use.input)
    requires w.execute(0, 0, use.name, use.input) == Output(e.out) && !e.out.isError
    ensures CacheTrue(l, w, announced, entries[KeyOf(w, use.name, use.input) := e])
  {
    forall u | u in announced && Cacheable(l, w, u.name, u.input) && KeyOf(w, u.name, u.input) == KeyOf(w, use.name, use.input)
      ensures u.name == use.name && u.input == use.input
    {
      KeyInjective(u.name, w.digest(w.marshal(u.input).value), use.name, w.digest(w.marshal(use.input).value));
    }
  }

  lemma SnocAlike(a: Run, b: Run, e: Event, e': Event)
    requires Alike(a, b) && Strip(e) == Strip(e')
    ensures Alike(Emitted(a, e), Emitted(b, e'))
  {
    StripsSnoc(a.events, e);
    StripsSnoc(b.events, e');
  }

  ghost predicate AlikeReplies(l: Loop, w: World, announced: set<ToolUse>, da: Replying, db: Replying) {
    match da
    case Reply(ra, result, _) => db.Reply? && db.result == result && Alike(ra, db.run) && CacheTrue(l, w, announced, ra.entries)
    case Ended(h) => db.Ended? && AlikeTurns(h, db.halt)
  }

  /** A cached reply against the same call made afresh. */
  lemma HitAlike(l: Loop, w: World, announced: set<ToolUse>, turn: nat, pos: nat, use: ToolUse, a: Run, b: Run)
    requires turn <= l.maxTurns && Fair(l, w, announced) && Known(l, use.name) && use in announced
    requires Alike(a, b) && CacheTrue(l, w, announced, a.entries)
    requires !Scope.Denied(a.filter, use.name) && Served(l, a.entries, CallKey(l, w, use), turn)
    ensures AlikeReplies(l, w, announced, Dispatched(l, w, turn, pos, use, a), Dispatched(Uncached(l), w, turn, pos, use, b))
  {
    hide CollisionFree, CacheBlind;
    var key := CallKey(l, w, use).value;
    assert Cacheable(l, w, use.name, use.input) && key == KeyOf(w, use.name, use.input);
    var out := a.entries[key].out;
    assert w.execute(turn, pos, use.name, use.input) == Output(out) by {
      assert w.execute(turn, pos, use.name, use.input) == w.execute(0, 0, use.name, use.input);
    }
    assert CallKey(Uncached(l), w, use) == None;
    assert w.totalErr(turn, pos + 1).None?;
  }

  /** The same fresh call on both sides. */
  lemma FreshAlike(l: Loop, w: World, announced: set<ToolUse>, turn: nat, pos: nat, use: ToolUse, a: Run, b: Run)
    requires Fair(l, w, announced) && Known(l, use.name) && use in announced
    requires Alike(a, b) && CacheTrue(l, w, announced, a.entries)
    requires !Scope.Denied(a.filter, use.name) && !Served(l, a.entries, CallKey(l, w, use), turn)
    ensures AlikeReplies(l, w, announced, Dispatched(l, w, turn, pos, use, a), Dispatched(Uncached(l), w, turn, pos, use, b))
  {
    hide CacheTrue, CacheBlind;
    var key := CallKey(l, w, use);
    assert CallKey(Uncached(l), w, use) == None;
    var outcome := w.execute(turn, pos, use.name, use.input);
    if key.Some? && outcome.Output? && !outcome.out.isError {
      assert Cacheable(l, w, use.name, use.input) && key.value == KeyOf(w, use.name, use.input);
      assert outcome == w.execute(0, 0, use.name, use.input);
      StoringKeepsTruth(l, w, announced, a.entries, use, Entry(outcome.out, turn));
    }
    var verdict := ClassifyToolErr(use.id, outcome, w.totalErr(turn, pos + 1));
    if verdict.Fatal? {
      var e := Finish(turn, verdict.cause.finish, verdict.cause.code, Some(verdict.cause.err));
      SnocAlike(a.(calls := a.calls + [Call(turn, use, key, Ran(outcome), a.filter)]),
                b.(calls := b.calls + [Call(turn, use, None, Ran(outcome), b.filter)]), e, e);
    }
  }

  lemma DispatchAlike(l: Loop, w: World, announced: set<ToolUse>, turn: nat, pos: nat, use: ToolUse, a: Run, b: Run)
    requires turn <= l.maxTurns && Fair(l, w, announced) && Known(l, use.name) && use in announced
    requires Alike(a, b) && CacheTrue(l, w, announced, a.entries)
    ensures AlikeReplies(l, w, announced, Dispatched(l, w, turn, pos, use, a), Dispatched(Uncached(l), w, turn, pos, use, b))
  {
    hide CacheTrue, Fair;
    if !Scope.Denied(a.filter, use.name) {
      if Served(l, a.entries, CallKey(l, w, use), turn) {
        HitAlike(l, w, announced, turn, pos, use, a, b);
      } else {
        FreshAlike(l, w, announced, turn, pos, use, a, b);
      }
    }
  }

  lemma {:induction false} PhaseTwoAlike(l: Loop, w: World, announced: set<ToolUse>, turn: nat, uses: seq<ToolUse>, a: Run, b: Run, results: seq<ToolResult>)
    requires turn <= l.maxTurns && Fair(l, w, announced) && AllKnown(l, uses) && |results| <= |uses|
    requires forall u :: u in uses ==> u in announced
    requires Alike(a, b) && CacheTrue(l, w, announced, a.entries)
    ensures var ra, rb := DispatchFrom(l, w, turn, uses, a, results), DispatchFrom(Uncached(l), w, turn, uses, b, results);
            match ra
            case Answered(next, rs) => rb.Answered? && rb.results == rs && Alike(next, rb.run) && CacheTrue(l, w, announced, next.entries)
            case Aborted(halt) => rb.Aborted? && AlikeTurns(halt, rb.halt)
    decreases |uses| - |results|
  {
    hide Dispatched, CacheTrue;
    if |results| < |uses| {
      var use := uses[|results|];
      assert use in uses && Known(l, use.name) && Known(Uncached(l), use.name);
      DispatchAlike(l, w, announced, turn, |results|, use, a, b);
      var da, db := Dispatched(l, w, turn, |results|, use, a), Dispatched(Uncached(l), w, turn, |results|, use, b);
      if da.Reply? {
        var ea, eb := ResultEvent(turn, da.result, da.cached), ResultEvent(turn, db.result, db.cached);
        SnocAlike(da.run, db.run, ea, eb);
        var ta, tb := Emitted(da.run, ea), Emitted(db.run, eb);
        assert w.emitErr(ta.events) == w.emitErr(tb.events);
        if w.emitErr(ta.events).None? {
          PhaseTwoAlike(l, w, announced, turn, uses, ta, tb, results + [da.result]);
        }
      }
    }
  }

  lemma {:induction false} AnnounceAlike(l: Loop, w: World, announced: set<ToolUse>, turn: nat, uses: seq<ToolUse>, a: Run, b: Run)
    requires Fair(l, w, announced) && Alike(a, b)
    ensures var ra, rb := Announce(w, turn, uses, a), Announce(w, turn, uses, b);
            && Alike(ra.run, rb.run) && (ra.Announced? <==> rb.Announced?)
            && (ra.Unannounced? ==> ra.err == rb.err)
  {
    if uses != [] {
      var e := CallEvent(turn, uses[0]);
      SnocAlike(a, b, e, e);
      assert w.emitErr(Emitted(a, e).events) == w.emitErr(Emitted(b, e).events);
      if w.emitErr(Emitted(a, e).events).None? {
        AnnounceAlike(l, w, announced, turn, uses[1..], Emitted(a, e), Emitted(b, e));
      }
    }
  }

  ghost predicate AlikeDrained(a: Drained, b: Drained) {
    Alike(a.run, b.run) && b == a.(run := b.run)
  }

  lemma {:induction false} DrainAlike(l: Loop, w: World, announced: set<ToolUse>, turn: nat, chunks: seq<Chunk>, a: Drained, b: Drained)
    requires Fair(l, w, announced) && AlikeDrained(a, b)
    ensures AlikeDrained(Drain(w, turn, chunks, a), Drain(w, turn, chunks, b))
  {
    if chunks != [] {
      var c := chunks[0];
      var e := Text(turn, c.token, c.thinking);
      SnocAlike(a.run, b.run, e, e);
      assert w.emitErr(Emitted(a.run, e).events) == w.emitErr(Emitted(b.run, e).events);
      var ta, tb := TakeToken(w, turn, c, a), TakeToken(w, turn, c, b);
      if ta.emitErr.None? {
        DrainAlike(l, w, announced, turn, chunks[1..], TakeFinish(c, ta), TakeFinish(c, tb));
      }
    }
  }

  /** The calls of a tool turn are in its log once they are all announced. */
  lemma TurnCovers(l: Loop, w: World, announced: set<ToolUse>, turn: nat, text: string, uses: seq<ToolUse>, run: Run)
    requires AllKnown(l, uses) && Announce(w, turn, uses, run).Announced?
    requires Covers(announced, ToolTurn(l, w, turn, run, text, uses).run.events)
    ensures forall u :: u in uses ==> u in announced
  {
    hide ToolTurn, Announce;
    AnnounceGrows(w, turn, uses, run);
    ToolTurnGrows(l, w, turn, run, text, uses);
    var log := Announce(w, turn, uses, run).run.events;
    PrefixCovers(announced, log, ToolTurn(l, w, turn, run, text, uses).run.events);
    forall u | u in uses ensures u in announced {
      var i :| 0 <= i < |log| && log[i] == CallEvent(turn, u);
    }
  }

  lemma ToolTurnAlike(l: Loop, w: World, announced: set<ToolUse>, turn: nat, text: string, uses: seq<ToolUse>, a: Run, b: Run)
    requires turn <= l.maxTurns && Fair(l, w, announced) && Alike(a, b) && CacheTrue(l, w, announced, a.entries)
    requires Covers(announced, ToolTurn(l, w, turn, a, text, uses).run.events)
    ensures var ta, tb := ToolTurn(l, w, turn, a, text, uses), ToolTurn(Uncached(l), w, turn, b, text, uses);
            AlikeTurns(ta, tb) && (ta.Continue? ==> CacheTrue(l, w, announced, ta.run.entries))
  {
    hide Dispatched, Fair, CacheTrue, Covers;
    assert AllKnown(l, uses) <==> AllKnown(Uncached(l), uses) by {
      assert forall name :: Known(l, name) <==> Known(Uncached(l), name);
    }
    if uses == [] || !AllKnown(l, uses) {
      var t := ToolTurn(l, w, turn, a, text, uses);
      SnocAlike(a, b, Finish(turn, t.finish, t.code, t.err), Finish(turn, t.finish, t.code, t.err));
    } else {
      AnnounceAlike(l, w, announced, turn, uses, a, b);
      AnnounceOnlyEmits(w, turn, uses, a);
      var pa, pb := Announce(w, turn, uses, a), Announce(w, turn, uses, b);
      if pa.Announced? {
        TurnCovers(l, w, announced, turn, text, uses, a);
        PhaseTwoAlike(l, w, announced, turn, uses, pa.run, pb.run, []);
        var ra := DispatchFrom(l, w, turn, uses, pa.run, []);
        assert ra.Answered? ==> ToolTurn(l, w, turn, a, text, uses).run.entries == ra.run.entries;
        assert ra.Aborted? ==> ToolTurn(l, w, turn, a, text, uses) == ra.halt && ra.halt.Halt? by {
          AbortsHalt(l, w, turn, uses, pa.run, []);
        }
      }
    }
  }

  lemma SettleAlike(l: Loop, w: World, announced: set<ToolUse>, turn: nat, a: Drained, b: Drained)
    requires turn <= l.maxTurns && Fair(l, w, announced) && AlikeDrained(a, b) && CacheTrue(l, w, announced, a.run.entries)
    requires Covers(announced, Settle(l, w, turn, a).run.events)
    ensures var ta, tb := Settle(l, w, turn, a), Settle(Uncached(l), w, turn, b);
            AlikeTurns(ta, tb) && (ta.Continue? ==> CacheTrue(l, w, announced, ta.run.entries))
  {
    hide ToolTurn, CacheTrue, Fair, Covers;
    if a.finish == FinishToolUse {
      ToolTurnAlike(l, w, announced, turn, a.text, a.uses, a.run, b.run);
    } else {
      var t := Settle(l, w, turn, a);
      SnocAlike(a.run, b.run, Finish(turn, t.finish, t.code, t.err), Finish(turn, t.finish, t.code, t.err));
    }
  }

  lemma TurnAlike(l: Loop, w: World, announced: set<ToolUse>, tools: seq<ToolSchema>, turn: nat, a: Run, b: Run)
    requires turn <= l.maxTurns && Fair(l, w, announced) && Alike(a, b) && CacheTrue(l, w, announced, a.entries)
    ensures var ta, tb := Turn(l, w, tools, turn, a), Turn(Uncached(l), w, tools, turn, b);
            Covers(announced, ta.run.events) ==>
              AlikeTurns(ta, tb) && (ta.Continue? ==> CacheTrue(l, w, announced, ta.run.entries))
  {
    hide Drain, Settle, CacheTrue, Covers;
    var e := TurnStart(turn);
    SnocAlike(a, b, e, e);
    var ea, eb := Emitted(a, e), Emitted(b, e);
    assert w.emitErr(ea.events) == w.emitErr(eb.events);
    if w.emitErr(ea.events).None? {
      var request := Request(a.msgs, Scope.Narrowed(tools, a.filter));
      var s := Sent(turn, |a.calls|, a.filter, request);
      var qa, qb := ea.(sent := ea.sent + [s]), eb.(sent := eb.sent + [s]);
      match w.stream(turn, request)
      case Refused(perr) =>
        var t := ClassifyTerminal(perr, w.totalErr(turn, 0));
        SnocAlike(qa, qb, Finish(turn, t.finish, t.code, Some(t.err)), Finish(turn, t.finish, t.code, Some(t.err)));
      case Streamed(chunks, streamErr) =>
        StreamAlike(l, w, announced, turn, qa, qb, chunks, streamErr);
    }
  }

  lemma StreamAlike(l: Loop, w: World, announced: set<ToolUse>, turn: nat, a: Run, b: Run, chunks: seq<Chunk>, streamErr: Option<Error>)
    requires turn <= l.maxTurns && Fair(l, w, announced) && Alike(a, b) && CacheTrue(l, w, announced, a.entries)
    ensures var da, db := Drain(w, turn, chunks, Drained(a, "", [], FinishUnset, None, None)),
                          Drain(w, turn, chunks, Drained(b, "", [], FinishUnset, None, None));
            && Alike(da.run, db.run) && da.emitErr == db.emitErr
            && var ta, tb := Settle(l, w, turn, Promoted(da, streamErr, w.totalErr(turn, 0))),
                             Settle(Uncached(l), w, turn, Promoted(db, streamErr, w.totalErr(turn, 0)));
               da.emitErr.None? && Covers(announced, ta.run.events) ==> AlikeTurns(ta, tb) && (ta.Continue? ==> CacheTrue(l, w, announced, ta.run.entries))
  {
    hide Drain, Settle, CacheTrue, Covers;
    var a0, b0 := Drained(a, "", [], FinishUnset, None, None), Drained(b, "", [], FinishUnset, None, None);
    DrainAlike(l, w, announced, turn, chunks, a0, b0);
    DrainOnlyEmits(w, turn, chunks, a0);
    var da, db := Drain(w, turn, chunks, a0), Drain(w, turn, chunks, b0);
    if da.emitErr.None? && Covers(announced, Settle(l, w, turn, Promoted(da, streamErr, w.totalErr(turn, 0))).run.events) {
      SettleAlike(l, w, announced, turn, Promoted(da, streamErr, w.totalErr(turn, 0)), Promoted(db, streamErr, w.totalErr(turn, 0)));
    }
  }

  lemma {:induction false} RunAlike(l: Loop, w: World, announced: set<ToolUse>, tools: seq<ToolSchema>, turn: nat, a: Run, b: Run)
    requires 1 <= turn <= l.maxTurns + 1
    requires Fair(l, w, announced) && Alike(a, b) && CacheTrue(l, w, announced, a.entries)
    requires Covers(announced, RunFrom(l, w, tools, turn, a).run.events)
    ensures var oa, ob := RunFrom(l, w, tools, turn, a), RunFrom(Uncached(l), w, tools, turn, b);
            oa.result == ob.result && oa.err == ob.err && Alike(oa.run, ob.run)
    decreases l.maxTurns + 1 - turn
  {
    hide Turn, Fair, CacheTrue, Covers;
    if turn > l.maxTurns {
      var e := Finish(turn - 1, FinishError, Code(ERR_MAX_TURNS), Some(ERR_MAX_TURNS));
      SnocAlike(a, b, e, e);
    } else {
      var ta := Turn(l, w, tools, turn, a);
      if ta.Continue? {
        RunGrows(l, w, tools, turn + 1, ta.run);
        PrefixCovers(announced, ta.run.events, RunFrom(l, w, tools, turn, a).run.events);
      }
      TurnAlike(l, w, announced, tools, turn, a, b);
      if ta.Continue? {
        RunAlike(l, w, announced, tools, turn + 1, ta.run, Turn(Uncached(l), w, tools, turn, b).run);
      }
    }
  }

  /** Everything two runs may be compared by, except what the cache served. */
  ghost predicate Indistinguishable(on: Outcome, off: Outcome) {
    && on.result == off.result
    && on.err == off.err
    && on.run.sent == off.run.sent
    && Strips(on.run.events) == Strips(off.run.events)
    && |on.run.calls| == |off.run.calls|
    && forall i :: 0 <= i < |on.run.calls| ==> SameCall(on.run.calls[i], off.run.calls[i])
  }

  /** The tool calls a log announces. */
  function Calls(events: seq<Event>): set<ToolUse> {
    set i | 0 <= i < |events| && events[i].CallEvent? :: events[i].use
  }

  /** Dedup is transparent: with the cache on or off a run returns the same transcript,
      finish reason, turn count, code and error, sends the provider the same requests,
      meets the same filters at the same calls, and emits the same events up to the
      Cached flag. Only the calls of this very run must have distinct keys. */
  lemma DedupIsTransparent(l: Loop, w: World, req: Request)
    requires l.registry.Some? ==> RegistryOk(l.registry.value)
    requires Fair(l, w, Calls(RunSpec(l, w, req).run.events))
    ensures Indistinguishable(RunSpec(l, w, req), RunSpec(Uncached(l), w, req))
  {
    hide RunFrom;
    var announced := Calls(RunSpec(l, w, req).run.events);
    RunAlike(l, w, announced, Offered(l, req), 1, Start(req), Start(req));
  }
}
