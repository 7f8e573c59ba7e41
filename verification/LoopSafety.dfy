/** What every run of the diagnose loop keeps: scope, cache use and transcript.

    Nothing is asked of the world here: the provider, the tools, the deadline and
    the consumer may do anything, and every return path of the run is covered. */
module LoopSafety {
  import opened Prelude
  import opened Llm
  import opened Dedup
  import opened DiagnoseLoop
  import Scope

  // ---------- reading the history of calls ----------

  /** The filter a call's result carried, if it was a success that carried one. */
  function Carried(c: Call): Scope.Filter {
    match c.mode
    case Hit(out) => if out.isError then None else out.toolFilter
    case Ran(Output(out)) => if out.isError then None else out.toolFilter
    case _ => None
  }

  /** `filter` is the normalised filter of the latest call that carried one. */
  ghost predicate Governs(calls: seq<Call>, filter: Scope.Filter) {
    || (filter.None? && forall i :: 0 <= i < |calls| ==> Carried(calls[i]).None?)
    || exists i :: 0 <= i < |calls| && Carried(calls[i]).Some? && filter == Scope.Normalized(Carried(calls[i]))
                   && forall j :: i < j < |calls| ==> Carried(calls[j]).None?
  }

  /** A fresh successful execution under key `k`. */
  predicate Succeeded(c: Call, k: string) {
    c.key == Some(k) && c.mode.Ran? && c.mode.outcome.Output? && !c.mode.outcome.out.isError
  }

  /** The latest successful execution under a key. */
  function LastSuccess(calls: seq<Call>, k: string): Option<Entry> {
    if calls == [] then None
    else
      var c := calls[|calls| - 1];
      if Succeeded(c, k) then Some(Entry(c.mode.outcome.out, c.turn)) else LastSuccess(calls[..|calls| - 1], k)
  }

  /** One call, judged against the calls before it. */
  ghost predicate CallOk(l: Loop, before: seq<Call>, c: Call) {
    && Governs(before, c.scope)
    && (c.mode.Denied? <==> Scope.Denied(c.scope, c.use.name))
    && (c.mode.Denied? ==> c.key.None?)
    && (c.mode.Hit? ==>
          && c.key.Some?
          && LastSuccess(before, c.key.value).Some?
          && LastSuccess(before, c.key.value).value.out == c.mode.out
          && Live(LastSuccess(before, c.key.value).value, l.dedupWindow, c.turn))
    && (c.mode.Ran? && c.key.Some? && LastSuccess(before, c.key.value).Some? ==>
          !Live(LastSuccess(before, c.key.value).value, l.dedupWindow, c.turn))
    && (before != [] ==> before[|before| - 1].turn <= c.turn)
    && 1 <= c.turn
  }

  ghost predicate HistoryOk(l: Loop, calls: seq<Call>) {
    calls == [] || (HistoryOk(l, calls[..|calls| - 1]) && CallOk(l, calls[..|calls| - 1], calls[|calls| - 1]))
  }

  ghost predicate SentOk(l: Loop, tools: seq<ToolSchema>, calls: seq<Call>, s: Sent) {
    && s.at <= |calls|
    && Governs(calls[..s.at], s.scope)
    && s.request.tools == Scope.Narrowed(tools, s.scope)
  }

  ghost predicate Keeps(l: Loop, tools: seq<ToolSchema>, turn: nat, run: Run) {
    && HistoryOk(l, run.calls)
    && (run.calls != [] ==> run.calls[|run.calls| - 1].turn <= turn)
    && Governs(run.calls, run.filter)
    && (forall k :: LastSuccess(run.calls, k) == if k in run.entries then Some(run.entries[k]) else None)
    && (forall i :: 0 <= i < |run.sent| ==> SentOk(l, tools, run.calls, run.sent[i]))
  }

  // ---------- every step keeps it ----------

  lemma GovernsAfter(calls: seq<Call>, filter: Scope.Filter, c: Call)
    requires Governs(calls, filter)
    ensures Governs(calls + [c], ScopeAfter(filter, c.mode))
  {
    var all := calls + [c];
    assert Carried(all[|calls|]) == Carried(c);
    if Carried(c).None? {
      assert ScopeAfter(filter, c.mode) == filter;
      if exists i :: 0 <= i < |calls| && Carried(calls[i]).Some? && filter == Scope.Normalized(Carried(calls[i]))
                     && forall j :: i < j < |calls| ==> Carried(calls[j]).None? {
        var i :| 0 <= i < |calls| && Carried(calls[i]).Some? && filter == Scope.Normalized(Carried(calls[i]))
                 && forall j :: i < j < |calls| ==> Carried(calls[j]).None?;
        assert all[i] == calls[i];
      }
    }
  }

  lemma CallKeeps(l: Loop, tools: seq<ToolSchema>, turn: nat, run: Run, c: Call)
    requires Keeps(l, tools, turn, run)
    requires CallOk(l, run.calls, c) && c.turn == turn && c.scope == run.filter
    ensures Keeps(l, tools, turn, run.(calls := run.calls + [c], filter := ScopeAfter(run.filter, c.mode),
                                       entries := EntriesAfter(run.entries, c)))
  {
    var calls := run.calls + [c];
    assert calls[..|calls| - 1] == run.calls;
    GovernsAfter(run.calls, run.filter, c);
    forall i | 0 <= i < |run.sent| ensures SentOk(l, tools, calls, run.sent[i]) {
      assert SentOk(l, tools, run.calls, run.sent[i]);
      assert calls[..run.sent[i].at] == run.calls[..run.sent[i].at];
    }
  }

  /** A call that met the current filter and cache fits the history. */
  lemma CallFits(l: Loop, tools: seq<ToolSchema>, turn: nat, run: Run, c: Call)
    requires Keeps(l, tools, turn, run) && 1 <= turn
    requires c.turn == turn && c.scope == run.filter
    requires c.mode.Denied? <==> Scope.Denied(run.filter, c.use.name)
    requires c.mode.Denied? ==> c.key.None?
    requires c.mode.Hit? ==> Served(l, run.entries, c.key, turn) && run.entries[c.key.value].out == c.mode.out
    requires c.mode.Ran? ==> !Served(l, run.entries, c.key, turn)
    ensures CallOk(l, run.calls, c)
  {
    assert c.key.Some? ==>
        LastSuccess(run.calls, c.key.value) == if c.key.value in run.entries then Some(run.entries[c.key.value]) else None;
  }

  lemma DispatchKeeps(l: Loop, w: World, tools: seq<ToolSchema>, turn: nat, pos: nat, use: ToolUse, run: Run)
    requires Known(l, use.name) && 1 <= turn
    requires Keeps(l, tools, turn, run)
    ensures var d := Dispatched(l, w, turn, pos, use, run);
            match d
            case Reply(next, result, _) => Keeps(l, tools, turn, next) && next.msgs == run.msgs && result.toolUseId == use.id
            case Ended(h) => h.Halt? && Keeps(l, tools, turn, h.run) && h.run.msgs == run.msgs
  {
    hide Keeps, CallOk;
    var key := CallKey(l, w, use);
    var c :=
      if Scope.Denied(run.filter, use.name) then Call(turn, use, None, Denied, run.filter)
      else if Served(l, run.entries, key, turn) then Call(turn, use, key, Hit(run.entries[key.value].out), run.filter)
      else Call(turn, use, key, Ran(w.execute(turn, pos, use.name, use.input)), run.filter);
    CallFits(l, tools, turn, run, c);
    CallKeeps(l, tools, turn, run, c);
    var kept := run.(calls := run.calls + [c], filter := ScopeAfter(run.filter, c.mode), entries := EntriesAfter(run.entries, c));
    match Dispatched(l, w, turn, pos, use, run)
    case Reply(next, _, _) => assert next == kept;
    case Ended(h) =>
      if c.mode.Ran? {
        EmittingKeeps(l, tools, turn, kept, h.run);
      } else {
        EmittingKeeps(l, tools, turn, run, h.run);
      }
  }

  /** The invariant looks neither at the event log nor at the messages. */
  lemma EmittingKeeps(l: Loop, tools: seq<ToolSchema>, turn: nat, run: Run, told: Run)
    requires Keeps(l, tools, turn, run) && told == run.(events := told.events, msgs := told.msgs)
    ensures Keeps(l, tools, turn, told)
  { }

  lemma {:induction false} PhaseTwoKeeps(l: Loop, w: World, tools: seq<ToolSchema>, turn: nat, uses: seq<ToolUse>, run: Run, results: seq<ToolResult>)
    requires |results| <= |uses| && AllKnown(l, uses) && 1 <= turn
    requires Keeps(l, tools, turn, run)
    requires forall i :: 0 <= i < |results| ==> results[i].toolUseId == uses[i].id
    ensures match DispatchFrom(l, w, turn, uses, run, results)
            case Answered(next, rs) =>
              && Keeps(l, tools, turn, next) && next.msgs == run.msgs && |rs| == |uses|
              && forall i :: 0 <= i < |rs| ==> rs[i].toolUseId == uses[i].id
            case Aborted(halt) => halt.Halt? && Keeps(l, tools, turn, halt.run) && halt.run.msgs == run.msgs
    decreases |uses| - |results|
  {
    hide Keeps, Dispatched;
    if |results| < |uses| {
      var use := uses[|results|];
      assert Known(l, use.name);
      DispatchKeeps(l, w, tools, turn, |results|, use, run);
      match Dispatched(l, w, turn, |results|, use, run)
      case Ended(halt) =>
      case Reply(next, result, cached) =>
        var told := Emitted(next, ResultEvent(turn, result, cached));
        EmittingKeeps(l, tools, turn, next, told);
        if w.emitErr(told.events).None? {
          PhaseTwoKeeps(l, w, tools, turn, uses, told, results + [result]);
        }
    }
  }

  // ---------- the transcript ----------

  function ToolUses(m: Message): seq<ToolUse> { UsesIn(m.content) }

  function UsesIn(bs: seq<Block>): seq<ToolUse> {
    if bs == [] then [] else (if bs[0].ToolUseBlock? then [bs[0].use] else []) + UsesIn(bs[1..])
  }

  function ToolResults(m: Message): seq<ToolResult> { ResultsIn(m.content) }

  function ResultsIn(bs: seq<Block>): seq<ToolResult> {
    if bs == [] then [] else (if bs[0].ToolResultBlock? then [bs[0].result] else []) + ResultsIn(bs[1..])
  }

  /** The second message answers every tool call of the first, in order. */
  ghost predicate Answers(a: Message, u: Message) {
    && u.role == RoleUser
    && |ToolResults(u)| == |ToolUses(a)|
    && forall i :: 0 <= i < |ToolUses(a)| ==> ToolResults(u)[i].toolUseId == ToolUses(a)[i].id
  }

  /** A committed pair: an assistant turn that calls tools and the user turn that answers
      it, neither holding anything else but the assistant's text. */
  ghost predicate PairOk(a: Message, u: Message) {
    && a.role == RoleAssistant
    && ToolUses(a) != []
    && ToolResults(a) == []
    && ToolUses(u) == []
    && (forall b :: b in u.content ==> b.ToolResultBlock?)
    && Answers(a, u)
  }

  ghost predicate Paired(base: seq<Message>, msgs: seq<Message>, turns: nat) {
    && base <= msgs
    && (|msgs| - |base|) % 2 == 0
    && |msgs| - |base| <= 2 * turns
    && forall j :: |base| <= j < |msgs| && (j - |base|) % 2 == 0 ==> PairOk(msgs[j], msgs[j + 1])
  }

  /** No tool call is left without its answer in the very next message. */
  ghost predicate NoOrphan(msgs: seq<Message>) {
    forall i :: 0 <= i < |msgs| && msgs[i].role == RoleAssistant && ToolUses(msgs[i]) != [] ==>
      i + 1 < |msgs| && Answers(msgs[i], msgs[i + 1])
  }

  lemma {:induction false} UseBlocksRead(text: seq<Block>, uses: seq<ToolUse>)
    requires forall b :: b in text ==> b.TextBlock?
    ensures UsesIn(text + UseBlocks(uses)) == uses
    ensures ResultsIn(text + UseBlocks(uses)) == []
    decreases |text| + |uses|
  {
    if text != [] {
      assert text[0] in text;
      assert (text + UseBlocks(uses))[1..] == text[1..] + UseBlocks(uses);
      UseBlocksRead(text[1..], uses);
    } else if uses != [] {
      assert text + UseBlocks(uses) == UseBlocks(uses);
      assert UseBlocks(uses)[1..] == [] + UseBlocks(uses[1..]);
      UseBlocksRead([], uses[1..]);
      assert uses == [uses[0]] + uses[1..];
    } else {
      assert text + UseBlocks(uses) == [];
    }
  }

  lemma {:induction false} ResultBlocksRead(results: seq<ToolResult>)
    ensures ResultsIn(ResultBlocks(results)) == results
    ensures UsesIn(ResultBlocks(results)) == []
  {
    if results != [] {
      assert ResultBlocks(results)[1..] == ResultBlocks(results[1..]);
      ResultBlocksRead(results[1..]);
    }
  }

  lemma CommittedPairOk(text: string, uses: seq<ToolUse>, results: seq<ToolResult>)
    requires uses != [] && |results| == |uses|
    requires forall i :: 0 <= i < |results| ==> results[i].toolUseId == uses[i].id
    ensures PairOk(AssistantTurn(text, uses), UserTurn(results))
  {
    UseBlocksRead(if text != "" then [TextBlock(text)] else [], uses);
    ResultBlocksRead(results);
  }

  lemma PairedGrows(base: seq<Message>, msgs: seq<Message>, turns: nat, a: Message, u: Message)
    requires Paired(base, msgs, turns) && PairOk(a, u)
    ensures Paired(base, msgs + [a, u], turns + 1)
  {
    var all := msgs + [a, u];
    forall j | |base| <= j < |all| && (j - |base|) % 2 == 0 ensures PairOk(all[j], all[j + 1]) {
      if j < |msgs| {
        assert j + 1 < |msgs|;
      }
    }
  }

  // ---------- turns and runs ----------

  lemma AskingKeeps(l: Loop, tools: seq<ToolSchema>, turn: nat, run: Run, s: Sent, asked: Run)
    requires Keeps(l, tools, turn, run)
    requires s.at == |run.calls| && s.scope == run.filter && s.request.tools == Scope.Narrowed(tools, run.filter)
    requires asked == run.(events := asked.events, sent := run.sent + [s])
    ensures Keeps(l, tools, turn, asked)
  {
    assert run.calls[..s.at] == run.calls;
    assert SentOk(l, tools, run.calls, s);
  }

  /** A turn keeps the run's invariant and commits one answered pair or nothing. */
  lemma TurnKeeps(l: Loop, w: World, tools: seq<ToolSchema>, base: seq<Message>, turn: nat, run: Run)
    requires Keeps(l, tools, turn, run) && 1 <= turn
    requires Paired(base, run.msgs, turn - 1)
    ensures var t := Turn(l, w, tools, turn, run);
            && Keeps(l, tools, turn, t.run)
            && (t.Halt? ==> t.run.msgs == run.msgs)
            && (t.Continue? ==> Paired(base, t.run.msgs, turn))
  {
    hide Keeps, Paired, Drain, Settle;
    var begun := Emitted(run, TurnStart(turn));
    if w.emitErr(begun.events).None? {
      var request := Request(run.msgs, Scope.Narrowed(tools, run.filter));
      var s := Sent(turn, |begun.calls|, begun.filter, request);
      var asked := begun.(sent := begun.sent + [s]);
      AskingKeeps(l, tools, turn, run, s, asked);
      var stream := w.stream(turn, request);
      match stream
      case Refused(perr) =>
        var t := ClassifyTerminal(perr, w.totalErr(turn, 0));
        EmittingKeeps(l, tools, turn, asked, Emitted(asked, Finish(turn, t.finish, t.code, Some(t.err))));
      case Streamed(chunks, streamErr) =>
        DrainingKeeps(l, w, tools, base, turn, asked, chunks, streamErr);
    } else {
      EmittingKeeps(l, tools, turn, run, begun);
    }
  }

  lemma DrainingKeeps(l: Loop, w: World, tools: seq<ToolSchema>, base: seq<Message>, turn: nat, asked: Run,
                      chunks: seq<Chunk>, streamErr: Option<Error>)
    requires Keeps(l, tools, turn, asked) && 1 <= turn
    requires Paired(base, asked.msgs, turn - 1)
    ensures var d := Drain(w, turn, chunks, Drained(asked, "", [], FinishUnset, None, None));
            var t := if d.emitErr.Some? then EmitFailed(d.run, d.emitErr.value)
                     else Settle(l, w, turn, Promoted(d, streamErr, w.totalErr(turn, 0)));
            && Keeps(l, tools, turn, t.run)
            && (t.Halt? ==> t.run.msgs == asked.msgs)
            && (t.Continue? ==> Paired(base, t.run.msgs, turn))
  {
    hide Keeps, Paired, Drain, ToolTurn;
    var d0 := Drained(asked, "", [], FinishUnset, None, None);
    DrainOnlyEmits(w, turn, chunks, d0);
    var d := Drain(w, turn, chunks, d0);
    EmittingKeeps(l, tools, turn, asked, d.run);
    var p := Promoted(d, streamErr, w.totalErr(turn, 0));
    if d.emitErr.None? {
      if p.finish == FinishToolUse {
        ToolTurnKeeps(l, w, tools, base, turn, p.run, p.text, p.uses);
      } else {
        var t := Settle(l, w, turn, p);
        EmittingKeeps(l, tools, turn, d.run, t.run);
      }
    }
  }

  lemma ToolTurnKeeps(l: Loop, w: World, tools: seq<ToolSchema>, base: seq<Message>, turn: nat, run: Run, text: string, uses: seq<ToolUse>)
    requires Keeps(l, tools, turn, run) && 1 <= turn
    requires Paired(base, run.msgs, turn - 1)
    ensures var t := ToolTurn(l, w, turn, run, text, uses);
            && Keeps(l, tools, turn, t.run)
            && (t.Halt? ==> t.run.msgs == run.msgs)
            && (t.Continue? ==> Paired(base, t.run.msgs, turn))
  {
    hide Keeps, DispatchFrom, Announce;
    EmittingKeeps(l, tools, turn, run, Emitted(run, Finish(turn, FinishError, "", Some(ERR_DECODE_FAILED))));
    EmittingKeeps(l, tools, turn, run, Emitted(run, Finish(turn, FinishToolUse, Code(ERR_TOOL_UNKNOWN), Some(ERR_TOOL_UNKNOWN))));
    if uses != [] && AllKnown(l, uses) {
      AnnounceOnlyEmits(w, turn, uses, run);
      var a := Announce(w, turn, uses, run);
      EmittingKeeps(l, tools, turn, run, a.run);
      if a.Announced? {
        PhaseTwoKeeps(l, w, tools, turn, uses, a.run, []);
        var r := DispatchFrom(l, w, turn, uses, a.run, []);
        if r.Answered? {
          EmittingKeeps(l, tools, turn, r.run, ToolTurn(l, w, turn, run, text, uses).run);
          CommittedPairOk(text, uses, r.results);
          PairedGrows(base, run.msgs, turn - 1, AssistantTurn(text, uses), UserTurn(r.results));
        }
      }
    }
  }

  lemma KeepsLater(l: Loop, tools: seq<ToolSchema>, turn: nat, run: Run)
    requires Keeps(l, tools, turn, run)
    ensures Keeps(l, tools, turn + 1, run)
  { }

  lemma PairedLater(base: seq<Message>, msgs: seq<Message>, turns: nat)
    requires Paired(base, msgs, turns)
    ensures Paired(base, msgs, turns + 1)
  { }

  lemma {:induction false} RunKeeps(l: Loop, w: World, tools: seq<ToolSchema>, base: seq<Message>, turn: nat, run: Run)
    requires 1 <= turn <= l.maxTurns + 1
    requires Keeps(l, tools, turn - 1, run)
    requires Paired(base, run.msgs, turn - 1)
    ensures var o := RunFrom(l, w, tools, turn, run);
            && Keeps(l, tools, o.result.turns, o.run)
            && o.result.turns <= l.maxTurns
            && o.result.messages == o.run.msgs
            && Paired(base, o.run.msgs, o.result.turns)
    decreases l.maxTurns + 1 - turn
  {
    hide Turn, Keeps, Paired;
    KeepsLater(l, tools, turn - 1, run);
    PairedLater(base, run.msgs, turn - 1);
    if turn <= l.maxTurns {
      TurnKeeps(l, w, tools, base, turn, run);
      var t := Turn(l, w, tools, turn, run);
      if t.Continue? {
        RunKeeps(l, w, tools, base, turn + 1, t.run);
      }
    } else {
      EmittingKeeps(l, tools, turn - 1, run, RunFrom(l, w, tools, turn, run).run);
    }
  }

  lemma WholeRunKeeps(l: Loop, w: World, req: Request)
    requires l.registry.Some? ==> RegistryOk(l.registry.value)
    ensures var o := RunSpec(l, w, req);
            && Keeps(l, Offered(l, req), o.result.turns, o.run)
            && o.result.turns <= l.maxTurns
            && o.result.messages == o.run.msgs
            && Paired(req.messages, o.run.msgs, o.result.turns)
  {
    RunKeeps(l, w, Offered(l, req), req.messages, 1, Start(req));
  }

  // ---------- main results ----------

  /** On every return path the transcript is the request's, followed by at most one
      answered pair per turn; a well-formed transcript never gains an orphan call. */
  lemma PairedTranscript(l: Loop, w: World, req: Request)
    requires l.registry.Some? ==> RegistryOk(l.registry.value)
    ensures var o := RunSpec(l, w, req);
            && Paired(req.messages, o.result.messages, o.result.turns)
            && o.result.turns <= l.maxTurns
            && (NoOrphan(req.messages) ==> NoOrphan(o.result.messages))
  {
    hide RunSpec, RunFrom;
    WholeRunKeeps(l, w, req);
    if NoOrphan(req.messages) {
      PairsAddNoOrphan(req.messages, RunSpec(l, w, req).result.messages, RunSpec(l, w, req).result.turns);
    }
  }

  lemma PairsAddNoOrphan(base: seq<Message>, msgs: seq<Message>, turns: nat)
    requires Paired(base, msgs, turns) && NoOrphan(base)
    ensures NoOrphan(msgs)
  {
    forall i | |base| <= i < |msgs| && (i - |base|) % 2 == 1 ensures msgs[i].role == RoleUser {
      assert PairOk(msgs[i - 1], msgs[i]);
    }
    forall i | 0 <= i < |msgs| && msgs[i].role == RoleAssistant && ToolUses(msgs[i]) != []
      ensures i + 1 < |msgs| && Answers(msgs[i], msgs[i + 1])
    {
      if i < |base| {
        assert msgs[i] == base[i] && msgs[i + 1] == base[i + 1];
      } else {
        assert PairOk(msgs[i], msgs[i + 1]);
      }
    }
  }

  lemma {:induction false} HistoryAt(l: Loop, calls: seq<Call>, i: nat)
    requires HistoryOk(l, calls) && i < |calls|
    ensures CallOk(l, calls[..i], calls[i]) && HistoryOk(l, calls[..i])
    decreases |calls|
  {
    var front := calls[..|calls| - 1];
    if i < |calls| - 1 {
      HistoryAt(l, front, i);
      assert front[..i] == calls[..i] && front[i] == calls[i];
    }
  }

  /** A filter keeps a tool from being called; the Skill tool it never does. */
  predicate Bars(filter: Scope.Filter, name: string) {
    filter.Some? && name != "Skill" && name !in filter.value
  }

  /** A schema comes from the request or from a registered tool. */
  ghost predicate OfferedBy(l: Loop, req: Request, ts: ToolSchema) {
    ts in req.tools || (l.registry.Some? && exists n :: n in l.registry.value.tools && l.registry.value.tools[n].schema == ts)
  }

  lemma {:induction false} SchemasAre(r: Registry, names: seq<string>, ts: ToolSchema)
    requires forall n :: n in names ==> n in r.tools
    ensures ts in Schemas(r, names) <==> exists n :: n in names && r.tools[n].schema == ts
  {
    if names != [] {
      SchemasAre(r, names[..|names| - 1], ts);
      assert names == names[..|names| - 1] + [names[|names| - 1]];
    }
  }

  lemma OfferedAre(l: Loop, req: Request, ts: ToolSchema)
    requires l.registry.Some? ==> RegistryOk(l.registry.value)
    ensures ts in Offered(l, req) <==> OfferedBy(l, req, ts)
  {
    if l.registry.Some? {
      SchemasAre(l.registry.value, l.registry.value.names, ts);
    }
  }

  /** Scope safety: in every run, the filter each call and each request meets is the one
      set by the latest success that carried one; a call reaches a tool or the cache
      exactly when that filter does not bar it; and a schema is advertised exactly when
      dispatching its name would not be denied at that point. */
  lemma ScopeSafety(l: Loop, w: World, req: Request)
    requires l.registry.Some? ==> RegistryOk(l.registry.value)
    ensures var run := RunSpec(l, w, req).run;
            && (forall i :: 0 <= i < |run.calls| ==>
                  && Governs(run.calls[..i], run.calls[i].scope)
                  && (run.calls[i].mode.Denied? <==> Bars(run.calls[i].scope, run.calls[i].use.name)))
            && (forall i :: 0 <= i < |run.sent| ==>
                  && run.sent[i].at <= |run.calls|
                  && Governs(run.calls[..run.sent[i].at], run.sent[i].scope)
                  && forall ts :: ts in run.sent[i].request.tools <==>
                       OfferedBy(l, req, ts) && !Bars(run.sent[i].scope, ts.name))
  {
    hide RunSpec, RunFrom;
    WholeRunKeeps(l, w, req);
    var run := RunSpec(l, w, req).run;
    forall i | 0 <= i < |run.calls| ensures CallOk(l, run.calls[..i], run.calls[i]) {
      HistoryAt(l, run.calls, i);
    }
    forall i, ts | 0 <= i < |run.sent|
      ensures ts in run.sent[i].request.tools <==> OfferedBy(l, req, ts) && !Bars(run.sent[i].scope, ts.name)
    {
      assert SentOk(l, Offered(l, req), run.calls, run.sent[i]);
      Scope.AdvertisedIffDispatchable(Offered(l, req), run.sent[i].scope, ts);
      OfferedAre(l, req, ts);
    }
    forall i | 0 <= i < |run.sent| ensures SentOk(l, Offered(l, req), run.calls, run.sent[i]) { }
  }

  lemma {:induction false} SchemasAt(r: Registry, names: seq<string>)
    requires forall n :: n in names ==> n in r.tools
    ensures |Schemas(r, names)| == |names|
    ensures forall i :: 0 <= i < |names| ==> Schemas(r, names)[i] == r.tools[names[i]].schema
  {
    if names != [] {
      SchemasAt(r, names[..|names| - 1]);
    }
  }

  /** Every request offers what the filter leaves of the request's own tools, and then of the
      registered ones in the registry's order. */
  lemma ToolsAreInOrder(l: Loop, w: World, req: Request, i: nat)
    requires l.registry.Some? && RegistryOk(l.registry.value)
    requires i < |RunSpec(l, w, req).run.sent|
    ensures var s := RunSpec(l, w, req).run.sent[i];
            var all := Schemas(l.registry.value, l.registry.value.names);
            && s.request.tools == Scope.Narrowed(req.tools, s.scope) + Scope.Narrowed(all, s.scope)
            && |all| == |l.registry.value.names|
            && forall j :: 0 <= j < |all| ==> all[j] == l.registry.value.tools[l.registry.value.names[j]].schema
  {
    hide RunSpec, RunFrom;
    WholeRunKeeps(l, w, req);
    var run := RunSpec(l, w, req).run;
    assert SentOk(l, Offered(l, req), run.calls, run.sent[i]);
    SchemasAt(l.registry.value, l.registry.value.names);
    Scope.NarrowingKeepsOrder(req.tools, Schemas(l.registry.value, l.registry.value.names), run.sent[i].scope);
  }

  // ---------- how often a key runs ----------

  /** The latest success under a key is a success of that key, no earlier than any other. */
  lemma {:induction false} LastSuccessIsLatest(l: Loop, calls: seq<Call>, k: string, i: nat)
    requires HistoryOk(l, calls) && i < |calls| && Succeeded(calls[i], k)
    ensures LastSuccess(calls, k).Some? && calls[i].turn <= LastSuccess(calls, k).value.turn
    decreases |calls|
  {
    var front := calls[..|calls| - 1];
    if i < |calls| - 1 {
      if Succeeded(calls[|calls| - 1], k) {
        TurnsGrow(l, calls, i, |calls| - 1);
      } else {
        LastSuccessIsLatest(l, front, k, i);
      }
    }
  }

  lemma {:induction false} TurnsGrow(l: Loop, calls: seq<Call>, i: nat, j: nat)
    requires HistoryOk(l, calls) && i <= j < |calls|
    ensures calls[i].turn <= calls[j].turn
    decreases j - i
  {
    if i < j {
      HistoryAt(l, calls, j);
      TurnsGrow(l, calls, i, j - 1);
      assert calls[..j][j - 1] == calls[j - 1];
    }
  }

  lemma {:induction false} LastSuccessWitness(calls: seq<Call>, k: string) returns (i: nat)
    requires LastSuccess(calls, k).Some?
    ensures i < |calls| && Succeeded(calls[i], k)
    ensures LastSuccess(calls, k) == Some(Entry(calls[i].mode.outcome.out, calls[i].turn))
  {
    if Succeeded(calls[|calls| - 1], k) {
      i := |calls| - 1;
    } else {
      i := LastSuccessWitness(calls[..|calls| - 1], k);
    }
  }

  function Successes(calls: seq<Call>, k: string): nat {
    if calls == [] then 0
    else Successes(calls[..|calls| - 1], k) + if Succeeded(calls[|calls| - 1], k) then 1 else 0
  }

  lemma {:induction false} SuccessesSpread(l: Loop, calls: seq<Call>, k: string)
    requires HistoryOk(l, calls)
    ensures LastSuccess(calls, k).None? <==> Successes(calls, k) == 0
    ensures LastSuccess(calls, k).Some? ==> (Successes(calls, k) - 1) * l.dedupWindow + 1 <= LastSuccess(calls, k).value.turn
  {
    if calls != [] {
      var front, c := calls[..|calls| - 1], calls[|calls| - 1];
      SuccessesSpread(l, front, k);
      if Succeeded(c, k) && LastSuccess(front, k).Some? {
        var n := Successes(front, k);
        assert (n + 1 - 1) * l.dedupWindow == (n - 1) * l.dedupWindow + l.dedupWindow;
      }
    }
  }

  /** Two successful executions under one key are at least `window` turns apart, and a
      key runs successfully at most ceil(turns / window) times. */
  lemma ExecutionBound(l: Loop, w: World, req: Request, k: string)
    requires l.registry.Some? ==> RegistryOk(l.registry.value)
    requires l.Built()
    ensures var o := RunSpec(l, w, req);
            && (forall i, j :: 0 <= i < j < |o.run.calls| && Succeeded(o.run.calls[i], k) && Succeeded(o.run.calls[j], k) ==>
                  o.run.calls[j].turn - o.run.calls[i].turn >= l.dedupWindow)
            && Successes(o.run.calls, k) <= (o.result.turns + l.dedupWindow - 1) / l.dedupWindow
  {
    hide RunSpec, RunFrom;
    WholeRunKeeps(l, w, req);
    var o := RunSpec(l, w, req);
    var calls := o.run.calls;
    forall i, j | 0 <= i < j < |calls| && Succeeded(calls[i], k) && Succeeded(calls[j], k)
      ensures calls[j].turn - calls[i].turn >= l.dedupWindow
    {
      SuccessesApart(l, calls, k, i, j);
    }
    SuccessesBounded(l, calls, k, o.result.turns);
  }

  lemma SuccessesApart(l: Loop, calls: seq<Call>, k: string, i: nat, j: nat)
    requires HistoryOk(l, calls)
    requires i < j < |calls| && Succeeded(calls[i], k) && Succeeded(calls[j], k)
    ensures calls[j].turn - calls[i].turn >= l.dedupWindow
  {
    HistoryAt(l, calls, j);
    assert calls[..j][i] == calls[i];
    LastSuccessIsLatest(l, calls[..j], k, i);
  }

  lemma SuccessesBounded(l: Loop, calls: seq<Call>, k: string, turns: nat)
    requires HistoryOk(l, calls) && l.Built()
    requires calls != [] ==> calls[|calls| - 1].turn <= turns
    ensures Successes(calls, k) <= (turns + l.dedupWindow - 1) / l.dedupWindow
  {
    SuccessesSpread(l, calls, k);
    if Successes(calls, k) > 0 {
      var i := LastSuccessWitness(calls, k);
      TurnsGrow(l, calls, i, |calls| - 1);
      CeilingBound(Successes(calls, k), l.dedupWindow, turns);
    }
  }

  lemma CeilingBound(n: nat, w: nat, t: nat)
    requires 1 <= n && 1 <= w && (n - 1) * w + 1 <= t
    ensures n <= (t + w - 1) / w
  {
    assert n * w <= t + w - 1 by { assert (n - 1) * w == n * w - w; }
    if (t + w - 1) / w < n {
      assert ((t + w - 1) / w + 1) * w <= n * w by { MulMonotone((t + w - 1) / w + 1, n, w); }
      assert false;
    }
  }

  lemma MulMonotone(a: nat, b: nat, w: nat)
    requires a <= b
    ensures a * w <= b * w
  { }

  /** Every cached reply repeats the output of a fresh success of this run, under the same
      key and fewer than `window` turns earlier; hits in between do not extend its life. */
  lemma HitsAreFresh(l: Loop, w: World, req: Request, j: nat)
    requires l.registry.Some? ==> RegistryOk(l.registry.value)
    requires j < |RunSpec(l, w, req).run.calls| && RunSpec(l, w, req).run.calls[j].mode.Hit?
    ensures var calls := RunSpec(l, w, req).run.calls;
            calls[j].key.Some? &&
            exists i :: 0 <= i < j && Succeeded(calls[i], calls[j].key.value)
                        && calls[i].mode.outcome.out == calls[j].mode.out
                        && calls[j].turn - calls[i].turn < l.dedupWindow
  {
    hide RunSpec, RunFrom;
    WholeRunKeeps(l, w, req);
    var calls := RunSpec(l, w, req).run.calls;
    HistoryAt(l, calls, j);
    var i := LastSuccessWitness(calls[..j], calls[j].key.value);
    assert calls[..j][i] == calls[i];
  }

  /** A call with a key is served from the cache exactly when the same key succeeded in this
      run fewer than `window` turns before; otherwise it runs. */
  lemma RepeatsAreServed(l: Loop, w: World, req: Request, j: nat)
    requires l.registry.Some? ==> RegistryOk(l.registry.value)
    requires j < |RunSpec(l, w, req).run.calls| && RunSpec(l, w, req).run.calls[j].key.Some?
    ensures var calls := RunSpec(l, w, req).run.calls;
            && (calls[j].mode.Hit? <==>
                  exists i :: 0 <= i < j && Succeeded(calls[i], calls[j].key.value) && calls[j].turn - calls[i].turn < l.dedupWindow)
            && (calls[j].mode.Hit? || calls[j].mode.Ran?)
  {
    hide RunSpec, RunFrom;
    WholeRunKeeps(l, w, req);
    var calls := RunSpec(l, w, req).run.calls;
    var k := calls[j].key.value;
    HistoryAt(l, calls, j);
    if LastSuccess(calls[..j], k).Some? {
      var i := LastSuccessWitness(calls[..j], k);
      assert calls[..j][i] == calls[i];
    }
    forall i | 0 <= i < j && Succeeded(calls[i], k)
      ensures LastSuccess(calls[..j], k).Some? && calls[i].turn <= LastSuccess(calls[..j], k).value.turn
    {
      assert calls[..j][i] == calls[i];
      LastSuccessIsLatest(l, calls[..j], k, i);
    }
    hide LastSuccess, HistoryOk;
  }
}
