/** How a run ends, what each of its requests carries and what each of its turns commits,
    told by the streams of the provider. The consumer refuses nothing here. */
module RunEnds {
  import opened Prelude
  import opened Llm
  import opened DiagnoseLoop
  import Scope

  // ---------- reading a stream ----------

  /** The visible text of a stream. */
  function Said(chunks: seq<Chunk>): string {
    if chunks == [] then ""
    else Said(chunks[..|chunks| - 1]) + if chunks[|chunks| - 1].thinking then "" else chunks[|chunks| - 1].token
  }

  /** The last chunk that carries a finish reason. */
  function LastFinish(chunks: seq<Chunk>): Option<Chunk> {
    if chunks == [] then None
    else if chunks[|chunks| - 1].finish != FinishUnset then Some(chunks[|chunks| - 1])
    else LastFinish(chunks[..|chunks| - 1])
  }

  /** The tool calls of the last finishing chunk that has any. */
  function CallsOf(chunks: seq<Chunk>): seq<ToolUse> {
    if chunks == [] then []
    else if chunks[|chunks| - 1].finish != FinishUnset && chunks[|chunks| - 1].toolUses != [] then chunks[|chunks| - 1].toolUses
    else CallsOf(chunks[..|chunks| - 1])
  }

  /** A piece of text or of thinking. */
  datatype Piece = Piece(text: string, thinking: bool)

  function Pieces(chunks: seq<Chunk>): seq<Piece> {
    if chunks == [] then []
    else
      var last := chunks[|chunks| - 1];
      Pieces(chunks[..|chunks| - 1]) + if last.token != "" then [Piece(last.token, last.thinking)] else []
  }

  function VisibleIn(pieces: seq<Piece>): string {
    if pieces == [] then ""
    else VisibleIn(pieces[..|pieces| - 1]) + if pieces[|pieces| - 1].thinking then "" else pieces[|pieces| - 1].text
  }

  /** What a stream says is the visible part of its pieces. */
  lemma {:induction false} SaidIsVisible(chunks: seq<Chunk>)
    ensures Said(chunks) == VisibleIn(Pieces(chunks))
  {
    if chunks != [] {
      var front, last := chunks[..|chunks| - 1], chunks[|chunks| - 1];
      SaidIsVisible(front);
      var pieces := Pieces(front);
      assert (pieces + [Piece(last.token, last.thinking)])[..|pieces|] == pieces;
      assert pieces + [] == pieces && Said(front) + "" == Said(front);
    }
  }

  /** The pieces a log tells in a turn. */
  function TextOf(events: seq<Event>, turn: nat): seq<Piece> {
    if events == [] then []
    else
      var last := events[|events| - 1];
      TextOf(events[..|events| - 1], turn) + if last.Text? && last.turn == turn then [Piece(last.text, last.thinking)] else []
  }

  lemma TextSnoc(events: seq<Event>, e: Event, turn: nat)
    ensures TextOf(events + [e], turn) == TextOf(events, turn) + if e.Text? && e.turn == turn then [Piece(e.text, e.thinking)] else []
  {
    assert (events + [e])[..|events|] == events;
  }

  /** The consumer refuses nothing. */
  ghost predicate Willing(w: World) { forall h :: w.emitErr(h).None? }

  lemma {:induction false} DrainSnoc(w: World, turn: nat, chunks: seq<Chunk>, c: Chunk, d: Drained)
    requires Willing(w) && d.emitErr.None?
    ensures var t := Drain(w, turn, chunks, d);
            t.emitErr.None? && Drain(w, turn, chunks + [c], d) == TakeFinish(c, TakeToken(w, turn, c, t))
    decreases chunks
  {
    if chunks == [] {
      assert (chunks + [c])[1..] == [];
    } else {
      DrainSnoc(w, turn, chunks[1..], c, TakeFinish(chunks[0], TakeToken(w, turn, chunks[0], d)));
      assert (chunks + [c])[1..] == chunks[1..] + [c];
    }
  }

  /** What draining some chunks leaves: what they say, call and finish with, and their text told. */
  ghost predicate DrainedSo(run: Run, turn: nat, chunks: seq<Chunk>, d: Drained) {
    && d.emitErr.None? && d.text == Said(chunks) && d.uses == CallsOf(chunks)
    && d.finish == (if LastFinish(chunks).Some? then LastFinish(chunks).value.finish else FinishUnset)
    && d.finishErr == (if LastFinish(chunks).Some? then LastFinish(chunks).value.err else None)
    && d.run == run.(events := d.run.events)
    && TextOf(d.run.events, turn) == TextOf(run.events, turn) + Pieces(chunks)
    && forall t: nat :: t != turn ==> TextOf(d.run.events, t) == TextOf(run.events, t)
  }

  lemma ChunkSnoc(front: seq<Chunk>, c: Chunk)
    ensures Said(front + [c]) == Said(front) + if c.thinking then "" else c.token
    ensures Pieces(front + [c]) == Pieces(front) + if c.token != "" then [Piece(c.token, c.thinking)] else []
    ensures LastFinish(front + [c]) == if c.finish != FinishUnset then Some(c) else LastFinish(front)
    ensures CallsOf(front + [c]) == if c.finish != FinishUnset && c.toolUses != [] then c.toolUses else CallsOf(front)
  {
    assert (front + [c])[..|front|] == front;
  }

  lemma ChunkReads(w: World, run: Run, turn: nat, front: seq<Chunk>, c: Chunk, d: Drained)
    requires Willing(w) && DrainedSo(run, turn, front, d)
    ensures DrainedSo(run, turn, front + [c], TakeFinish(c, TakeToken(w, turn, c, d)))
  {
    ChunkSnoc(front, c);
    TokenReads(w, turn, c, d, TextOf(run.events, turn), Said(front), Pieces(front));
    hide TextOf, TakeToken, Said, Pieces, LastFinish, CallsOf;
  }

  lemma NothingDrained(run: Run, turn: nat)
    ensures DrainedSo(run, turn, [], Drained(run, "", [], FinishUnset, None, None))
  {
    assert TextOf(run.events, turn) + [] == TextOf(run.events, turn);
  }

  lemma {:induction false} DrainReads(w: World, turn: nat, chunks: seq<Chunk>, run: Run)
    requires Willing(w)
    ensures DrainedSo(run, turn, chunks, Drain(w, turn, chunks, Drained(run, "", [], FinishUnset, None, None)))
  {
    var d0 := Drained(run, "", [], FinishUnset, None, None);
    hide DrainedSo, TakeFinish, TakeToken;
    if chunks == [] {
      NothingDrained(run, turn);
    } else {
      var front, c := chunks[..|chunks| - 1], chunks[|chunks| - 1];
      DrainReads(w, turn, front, run);
      DrainSnoc(w, turn, front, c, d0);
      assert chunks == front + [c];
      ChunkReads(w, run, turn, front, c, Drain(w, turn, front, d0));
    }
  }

  lemma TokenReads(w: World, turn: nat, c: Chunk, d: Drained, before: seq<Piece>, said: string, pieces: seq<Piece>)
    requires Willing(w) && d.emitErr.None? && TextOf(d.run.events, turn) == before + pieces && d.text == said
    ensures var t := TakeToken(w, turn, c, d);
            && t == d.(run := t.run, text := t.text) && t.run == d.run.(events := t.run.events)
            && t.text == said + (if c.thinking then "" else c.token)
            && TextOf(t.run.events, turn) == before + (pieces + if c.token != "" then [Piece(c.token, c.thinking)] else [])
            && forall n: nat :: n != turn ==> TextOf(t.run.events, n) == TextOf(d.run.events, n)
  {
    assert said + "" == said && pieces + [] == pieces;
    var e := Text(turn, c.token, c.thinking);
    TextSnoc(d.run.events, e, turn);
    assert TextOf(d.run.events, turn) + [] == TextOf(d.run.events, turn);
    forall n: nat | n != turn ensures TextOf(d.run.events + [e], n) == TextOf(d.run.events, n) {
      TextSnoc(d.run.events, e, n);
    }
    Associate(before, pieces, [Piece(c.token, c.thinking)]);
    hide TextOf;
  }

  // ---------- how a turn can end a run ----------

  /** The total deadline has fired when the provider is asked or has answered. */
  predicate Overdue(w: World, turn: nat) {
    w.totalErr(turn, 0).Some? && w.totalErr(turn, 0).value.cause == ContextDeadline
  }

  /** A run that is ended by an error of the provider. */
  predicate EndedByError(w: World, turn: nat, e: Error, finish: FinishReason, code: string, err: Option<Error>) {
    if e.cause in {ContextCanceled, ContextDeadline} && Overdue(w, turn) then
      finish == FinishError && code == "DIAGNOSE.TOTAL_TIMEOUT" && err == Some(ERR_TOTAL_TIMEOUT)
    else if e.cause == ContextCanceled then finish == FinishCancelled && code == "" && err == Some(e)
    else if e.cause == ContextDeadline then finish == FinishError && code == "" && err == Some(ERR_TIMEOUT)
    else finish == FinishError && err == Some(e)
  }

  /** A run that is ended by the finish reason of a stream. */
  predicate EndedByFinish(c: Chunk, finish: FinishReason, code: string, err: Option<Error>) {
    match c.finish
    case FinishStop | FinishStopSequence | FinishLength => finish == c.finish && code == "" && err == None
    case FinishRefusal => finish == FinishRefusal && code == "" && err == Some(ERR_PROVIDER_REFUSAL)
    case FinishCancelled => finish == FinishCancelled && code == "" && err == c.err
    case FinishError =>
      && finish == FinishError && err == c.err
      && code == if c.err.Some? && c.err.value.cause == Registered("DIAGNOSE.TOTAL_TIMEOUT") then "DIAGNOSE.TOTAL_TIMEOUT" else ""
    case FinishPause => finish == FinishPause && code == "DIAGNOSE.UNEXPECTED_PAUSE" && err == Some(ERR_UNEXPECTED_PAUSE)
    case _ => false
  }

  /** A run that is ended by tool calls that cannot be made. */
  predicate EndedByCalls(l: Loop, uses: seq<ToolUse>, finish: FinishReason, code: string, err: Option<Error>) {
    if uses == [] then finish == FinishError && code == "" && err == Some(ERR_DECODE_FAILED)
    else !AllKnown(l, uses) && finish == FinishToolUse && code == "DIAGNOSE.TOOL_UNKNOWN" && err == Some(ERR_TOOL_UNKNOWN)
  }

  /** The stream asks for tool calls that can all be made. */
  predicate Callable(l: Loop, s: StreamOutcome) {
    && s.Streamed? && LastFinish(s.chunks).Some? && LastFinish(s.chunks).value.finish == FinishToolUse
    && CallsOf(s.chunks) != [] && AllKnown(l, CallsOf(s.chunks))
  }

  /** A run that is ended by what the provider gave in its last turn, its tool calls apart. */
  predicate EndedByStream(l: Loop, w: World, turn: nat, s: StreamOutcome, finish: FinishReason, code: string, err: Option<Error>) {
    if s.Refused? then
      EndedByError(w, turn, s.err, finish, code, err) && (s.err.cause !in {ContextCanceled, ContextDeadline} ==> code == "")
    else if LastFinish(s.chunks).Some? then
      if LastFinish(s.chunks).value.finish == FinishToolUse then EndedByCalls(l, CallsOf(s.chunks), finish, code, err)
      else EndedByFinish(LastFinish(s.chunks).value, finish, code, err)
    else if s.streamErr.Some? then
      && EndedByError(w, turn, s.streamErr.value, finish, code, err)
      && (s.streamErr.value.cause !in {ContextCanceled, ContextDeadline} ==>
            code == if s.streamErr.value.cause == Registered("DIAGNOSE.TOTAL_TIMEOUT") then "DIAGNOSE.TOTAL_TIMEOUT" else "")
    else finish == FinishError && code == "" && err == Some(ERR_STREAM_EMPTY)
  }

  /** A message that says some text and makes some calls. */
  predicate SaysAndCalls(m: Message, text: string, uses: seq<ToolUse>) {
    var k := if text == "" then 0 else 1;
    && m.role == RoleAssistant && |m.content| == k + |uses|
    && (k == 1 ==> m.content[0] == TextBlock(text))
    && forall i :: 0 <= i < |uses| ==> m.content[k + i] == ToolUseBlock(uses[i])
  }

  /** Turn i + 1 of a run went on: its request carried the transcript so far, and what the
      stream said and called is what was told and committed. */
  ghost predicate WentOn(l: Loop, w: World, base: nat, run: Run, i: nat)
    requires i < |run.sent|
  {
    var s := run.sent[i];
    var stream := w.stream(i + 1, s.request);
    && Callable(l, stream)
    && base + 2 * i + 2 <= |run.msgs|
    && s.request.messages == run.msgs[..base + 2 * i]
    && SaysAndCalls(run.msgs[base + 2 * i], Said(stream.chunks), CallsOf(stream.chunks))
    && TextOf(run.events, i + 1) == Pieces(stream.chunks)
  }

  /** Between turns. */
  ghost predicate Onward(l: Loop, w: World, base: seq<Message>, turn: nat, run: Run) {
    && base <= run.msgs && |run.msgs| == |base| + 2 * turn && |run.sent| == turn
    && (forall i :: 0 <= i < turn ==> run.sent[i].turn == i + 1 && WentOn(l, w, |base|, run, i))
    && forall t: nat :: t > turn ==> TextOf(run.events, t) == []
  }

  /** The end of a run in the turn after `turn`. */
  ghost predicate EndedIn(l: Loop, w: World, base: seq<Message>, turn: nat, run: Run, finish: FinishReason, code: string, err: Option<Error>) {
    && base <= run.msgs && |run.msgs| == |base| + 2 * turn && |run.sent| == turn + 1
    && (forall i :: 0 <= i < turn ==> run.sent[i].turn == i + 1 && WentOn(l, w, |base|, run, i))
    && run.sent[turn].turn == turn + 1 && run.sent[turn].request.messages == run.msgs
    && var stream := w.stream(turn + 1, run.sent[turn].request);
       && (!Callable(l, stream) ==> EndedByStream(l, w, turn + 1, stream, finish, code, err))
       && (Callable(l, stream) ==> err.Some? && finish in {FinishCancelled, FinishError})
       && TextOf(run.events, turn + 1) == if stream.Streamed? then Pieces(stream.chunks) else []
  }

  // ---------- a turn ----------

  /** Only the log changed, and told no text. */
  ghost predicate OnlyTold(a: Run, b: Run) {
    b.msgs == a.msgs && b.sent == a.sent && forall t :: TextOf(b.events, t) == TextOf(a.events, t)
  }

  lemma QuietSnoc(run: Run, e: Event)
    requires !e.Text?
    ensures OnlyTold(run, Emitted(run, e))
  {
    forall t ensures TextOf(run.events + [e], t) == TextOf(run.events, t) {
      TextSnoc(run.events, e, t);
      assert TextOf(run.events, t) + [] == TextOf(run.events, t);
    }
  }

  lemma {:induction false} AnnounceQuiet(w: World, turn: nat, uses: seq<ToolUse>, run: Run)
    requires Willing(w)
    ensures Announce(w, turn, uses, run).Announced? && OnlyTold(run, Announce(w, turn, uses, run).run)
  {
    if uses != [] {
      QuietSnoc(run, CallEvent(turn, uses[0]));
      AnnounceQuiet(w, turn, uses[1..], Emitted(run, CallEvent(turn, uses[0])));
    }
    hide TextOf;
  }

  lemma DispatchQuiet(l: Loop, w: World, turn: nat, pos: nat, use: ToolUse, run: Run)
    requires Known(l, use.name)
    ensures var d := Dispatched(l, w, turn, pos, use, run);
            && (d.Reply? ==> d.run.events == run.events && d.run.msgs == run.msgs && d.run.sent == run.sent)
            && (d.Ended? ==> d.halt.Halt? && OnlyTold(run, d.halt.run) && d.halt.err.Some? && d.halt.finish in {FinishCancelled, FinishError})
  {
    var d := Dispatched(l, w, turn, pos, use, run);
    if d.Ended? {
      QuietSnoc(run, Finish(turn, d.halt.finish, d.halt.code, d.halt.err));
    }
    hide TextOf;
  }

  lemma {:induction false} PhaseTwoQuiet(l: Loop, w: World, turn: nat, uses: seq<ToolUse>, run: Run, results: seq<ToolResult>)
    requires Willing(w) && AllKnown(l, uses) && |results| <= |uses|
    ensures var a := DispatchFrom(l, w, turn, uses, run, results);
            && (a.Answered? ==> OnlyTold(run, a.run))
            && (a.Aborted? ==> a.halt.Halt? && OnlyTold(run, a.halt.run) && a.halt.err.Some? && a.halt.finish in {FinishCancelled, FinishError})
    decreases |uses| - |results|
  {
    hide Dispatched, TextOf;
    if |results| < |uses| {
      var use := uses[|results|];
      DispatchQuiet(l, w, turn, |results|, use, run);
      var d := Dispatched(l, w, turn, |results|, use, run);
      if d.Reply? {
        QuietSnoc(d.run, ResultEvent(turn, d.result, d.cached));
        PhaseTwoQuiet(l, w, turn, uses, Emitted(d.run, ResultEvent(turn, d.result, d.cached)), results + [d.result]);
      }
    }
  }

  /** What a turn does after its stream was drained. */
  ghost predicate SettledSo(l: Loop, w: World, turn: nat, before: Run, text: string, uses: seq<ToolUse>, t: Turned) {
    if t.Continue? then
      && OnlyTold(before.(msgs := t.run.msgs), t.run)
      && |t.run.msgs| == |before.msgs| + 2 && t.run.msgs[..|before.msgs|] == before.msgs
      && SaysAndCalls(t.run.msgs[|before.msgs|], text, uses)
    else OnlyTold(before, t.run)
  }

  lemma AssistantSays(text: string, uses: seq<ToolUse>)
    ensures SaysAndCalls(AssistantTurn(text, uses), text, uses)
  { }

  /** A turn that goes on after calls that can be made, or is ended by one of them. */
  predicate GoesOn(t: Turned) {
    t.Continue? || (t.err.Some? && t.finish in {FinishCancelled, FinishError})
  }

  lemma CallableSettles(l: Loop, w: World, turn: nat, run: Run, text: string, uses: seq<ToolUse>)
    requires Willing(w) && uses != [] && AllKnown(l, uses)
    ensures var t := ToolTurn(l, w, turn, run, text, uses);
            SettledSo(l, w, turn, run, text, uses, t) && GoesOn(t)
  {
    AnnounceQuiet(w, turn, uses, run);
    var r := Announce(w, turn, uses, run).run;
    PhaseTwoQuiet(l, w, turn, uses, r, []);
    AssistantSays(text, uses);
    hide Announce, DispatchFrom, TextOf, SaysAndCalls;
    var a := DispatchFrom(l, w, turn, uses, r, []);
    if a.Answered? {
      var msgs := a.run.msgs + [AssistantTurn(text, uses), UserTurn(a.results)];
      assert msgs[..|run.msgs|] == run.msgs && msgs[|run.msgs|] == AssistantTurn(text, uses);
    }
  }

  lemma ToolTurnSettles(l: Loop, w: World, turn: nat, run: Run, text: string, uses: seq<ToolUse>)
    requires Willing(w)
    ensures var t := ToolTurn(l, w, turn, run, text, uses);
            && SettledSo(l, w, turn, run, text, uses, t)
            && (uses != [] && AllKnown(l, uses) ==> GoesOn(t))
            && (uses == [] || !AllKnown(l, uses) ==> t.Halt? && EndedByCalls(l, uses, t.finish, t.code, t.err))
  {
    if uses != [] && AllKnown(l, uses) {
      CallableSettles(l, w, turn, run, text, uses);
      hide ToolTurn, SettledSo;
    } else {
      QuietSnoc(run, Finish(turn, FinishError, "", Some(ERR_DECODE_FAILED)));
      QuietSnoc(run, Finish(turn, FinishToolUse, Code(ERR_TOOL_UNKNOWN), Some(ERR_TOOL_UNKNOWN)));
      hide Announce, DispatchFrom, TextOf, OnlyTold;
    }
  }

  /** A finish other than tool use, or none, ends the turn. */
  lemma PlainSettles(l: Loop, w: World, turn: nat, d: Drained, chunks: seq<Chunk>, streamErr: Option<Error>)
    requires d.finish == (if LastFinish(chunks).Some? then LastFinish(chunks).value.finish else FinishUnset)
    requires d.finishErr == (if LastFinish(chunks).Some? then LastFinish(chunks).value.err else None)
    requires d.finish != FinishToolUse
    ensures var t := Settle(l, w, turn, Promoted(d, streamErr, w.totalErr(turn, 0)));
            && t.Halt? && OnlyTold(d.run, t.run)
            && EndedByStream(l, w, turn, Streamed(chunks, streamErr), t.finish, t.code, t.err)
  {
    var t := Settle(l, w, turn, Promoted(d, streamErr, w.totalErr(turn, 0)));
    LastIsFinish(chunks);
    hide LastFinish, TextOf, ToolTurn;
    QuietSnoc(d.run, Finish(turn, t.finish, t.code, t.err));
    hide OnlyTold;
  }

  lemma {:induction false} LastIsFinish(chunks: seq<Chunk>)
    ensures LastFinish(chunks).Some? ==> LastFinish(chunks).value.finish != FinishUnset
  {
    if chunks != [] { LastIsFinish(chunks[..|chunks| - 1]); }
  }

  /** The stream's finish decides how the turn settles. */
  lemma StreamSettles(l: Loop, w: World, turn: nat, run: Run, chunks: seq<Chunk>, streamErr: Option<Error>)
    requires Willing(w)
    ensures var d := Drain(w, turn, chunks, Drained(run, "", [], FinishUnset, None, None));
            var t := Settle(l, w, turn, Promoted(d, streamErr, w.totalErr(turn, 0)));
            && SettledSo(l, w, turn, d.run, Said(chunks), CallsOf(chunks), t)
            && var stream := Streamed(chunks, streamErr);
               && (Callable(l, stream) ==> GoesOn(t))
               && (!Callable(l, stream) ==> t.Halt? && EndedByStream(l, w, turn, stream, t.finish, t.code, t.err))
  {
    DrainReads(w, turn, chunks, run);
    var d := Drain(w, turn, chunks, Drained(run, "", [], FinishUnset, None, None));
    hide Drain, TextOf, LastFinish, Said, Pieces, CallsOf, ToolTurn, OnlyTold, SaysAndCalls, EndedByCalls, EndedByError, EndedByFinish;
    if d.finish == FinishToolUse {
      ToolTurnSettles(l, w, turn, d.run, d.text, d.uses);
    } else {
      PlainSettles(l, w, turn, d, chunks, streamErr);
    }
  }

  ghost predicate TurnSo(l: Loop, w: World, base: seq<Message>, turn: nat, t: Turned) {
    if t.Continue? then Onward(l, w, base, turn + 1, t.run)
    else EndedIn(l, w, base, turn, t.run, t.finish, t.code, t.err)
  }

  /** What earlier turns did stays as it was. */
  lemma WentOnStays(l: Loop, w: World, base: nat, a: Run, b: Run, i: nat)
    requires i < |a.sent| && WentOn(l, w, base, a, i) && a.sent <= b.sent && a.msgs <= b.msgs
    requires TextOf(b.events, i + 1) == TextOf(a.events, i + 1)
    ensures WentOn(l, w, base, b, i) && b.sent[i] == a.sent[i]
  {
    assert b.msgs[..base + 2 * i] == a.msgs[..base + 2 * i];
    hide SaysAndCalls, Callable;
  }

  lemma AskedOnward(l: Loop, w: World, base: seq<Message>, turn: nat, run: Run, asked: Run, s: Sent)
    requires Onward(l, w, base, turn, run) && asked.msgs == run.msgs && asked.sent == run.sent + [s]
    requires s.turn == turn + 1 && s.request.messages == run.msgs
    requires forall t :: TextOf(asked.events, t) == TextOf(run.events, t)
    ensures forall i :: 0 <= i < turn ==> asked.sent[i].turn == i + 1 && WentOn(l, w, |base|, asked, i)
  {
    forall i | 0 <= i < turn ensures asked.sent[i].turn == i + 1 && WentOn(l, w, |base|, asked, i) {
      WentOnStays(l, w, |base|, run, asked, i);
    }
  }

  lemma TurnOnward(l: Loop, w: World, tools: seq<ToolSchema>, base: seq<Message>, turn: nat, run: Run)
    requires Willing(w) && Onward(l, w, base, turn, run)
    ensures TurnSo(l, w, base, turn, Turn(l, w, tools, turn + 1, run))
  {
    var now := turn + 1;
    var begun := Emitted(run, TurnStart(now));
    QuietSnoc(run, TurnStart(now));
    var request := Request(run.msgs, Scope.Narrowed(tools, run.filter));
    var s := Sent(now, |begun.calls|, begun.filter, request);
    var asked := begun.(sent := begun.sent + [s]);
    hide TextOf, Drain, Settle, WentOn, EndedByStream, Callable;
    AskedOnward(l, w, base, turn, run, asked, s);
    match w.stream(now, request)
    case Refused(perr) =>
      var t := ClassifyTerminal(perr, w.totalErr(now, 0));
      QuietSnoc(asked, Finish(now, t.finish, t.code, Some(t.err)));
      RefusedEnds(l, w, base, turn, run, asked, perr);
    case Streamed(chunks, streamErr) =>
      DrainReads(w, now, chunks, asked);
      StreamSettles(l, w, now, asked, chunks, streamErr);
      var d := Drain(w, now, chunks, Drained(asked, "", [], FinishUnset, None, None));
      var t := Settle(l, w, now, Promoted(d, streamErr, w.totalErr(now, 0)));
      StreamEnds(l, w, base, turn, run, asked, d.run, chunks, streamErr, t);
  }

  lemma RefusedEnds(l: Loop, w: World, base: seq<Message>, turn: nat, run: Run, asked: Run, perr: Error)
    requires Onward(l, w, base, turn, run) && |asked.sent| == turn + 1 && asked.msgs == run.msgs
    requires forall i :: 0 <= i < turn ==> asked.sent[i].turn == i + 1 && WentOn(l, w, |base|, asked, i)
    requires asked.sent[turn].turn == turn + 1 && asked.sent[turn].request.messages == run.msgs
    requires w.stream(turn + 1, asked.sent[turn].request) == Refused(perr)
    requires forall t :: TextOf(asked.events, t) == TextOf(run.events, t)
    ensures var t := ClassifyTerminal(perr, w.totalErr(turn + 1, 0));
            EndedIn(l, w, base, turn, Emitted(asked, Finish(turn + 1, t.finish, t.code, Some(t.err))), t.finish, t.code, Some(t.err))
  {
    var t := ClassifyTerminal(perr, w.totalErr(turn + 1, 0));
    var last := Emitted(asked, Finish(turn + 1, t.finish, t.code, Some(t.err)));
    QuietSnoc(asked, Finish(turn + 1, t.finish, t.code, Some(t.err)));
    RefusedEndsSo(l, w, turn + 1, perr);
    hide TextOf, WentOn, EndedByStream, ClassifyTerminal, Callable;
    forall i | 0 <= i < turn ensures WentOn(l, w, |base|, last, i) {
      WentOnStays(l, w, |base|, asked, last, i);
    }
  }

  lemma RefusedEndsSo(l: Loop, w: World, turn: nat, perr: Error)
    ensures var t := ClassifyTerminal(perr, w.totalErr(turn, 0));
            EndedByStream(l, w, turn, Refused(perr), t.finish, t.code, Some(t.err)) && !Callable(l, Refused(perr))
  { }

  lemma StreamEnds(l: Loop, w: World, base: seq<Message>, turn: nat, run: Run, asked: Run, drained: Run,
                   chunks: seq<Chunk>, streamErr: Option<Error>, t: Turned)
    requires Onward(l, w, base, turn, run) && |asked.sent| == turn + 1 && asked.msgs == run.msgs
    requires forall i :: 0 <= i < turn ==> asked.sent[i].turn == i + 1 && WentOn(l, w, |base|, asked, i)
    requires asked.sent[turn].turn == turn + 1 && asked.sent[turn].request.messages == run.msgs
    requires w.stream(turn + 1, asked.sent[turn].request) == Streamed(chunks, streamErr)
    requires forall n :: TextOf(asked.events, n) == TextOf(run.events, n)
    requires drained == asked.(events := drained.events)
    requires TextOf(drained.events, turn + 1) == TextOf(asked.events, turn + 1) + Pieces(chunks)
    requires forall n: nat :: n != turn + 1 ==> TextOf(drained.events, n) == TextOf(asked.events, n)
    requires SettledSo(l, w, turn + 1, drained, Said(chunks), CallsOf(chunks), t)
    requires var stream := Streamed(chunks, streamErr);
             && (Callable(l, stream) ==> GoesOn(t))
             && (!Callable(l, stream) ==> t.Halt? && EndedByStream(l, w, turn + 1, stream, t.finish, t.code, t.err))
    ensures TurnSo(l, w, base, turn, t)
  {
    hide TextOf, WentOn, EndedByStream, Callable, Said, Pieces, CallsOf, SaysAndCalls;
    assert TextOf(drained.events, turn + 1) == [] + Pieces(chunks) == Pieces(chunks);
    forall i | 0 <= i < turn ensures WentOn(l, w, |base|, t.run, i) {
      assert TextOf(t.run.events, i + 1) == TextOf(drained.events, i + 1);
      WentOnStays(l, w, |base|, asked, t.run, i);
    }
    if t.Continue? {
      NowWentOn(l, w, |base|, turn, t.run, chunks, streamErr);
    }
  }

  lemma NowWentOn(l: Loop, w: World, base: nat, turn: nat, run: Run, chunks: seq<Chunk>, streamErr: Option<Error>)
    requires turn < |run.sent| && w.stream(turn + 1, run.sent[turn].request) == Streamed(chunks, streamErr)
    requires Callable(l, Streamed(chunks, streamErr)) && |run.msgs| == base + 2 * turn + 2
    requires run.sent[turn].request.messages == run.msgs[..base + 2 * turn]
    requires SaysAndCalls(run.msgs[base + 2 * turn], Said(chunks), CallsOf(chunks))
    requires TextOf(run.events, turn + 1) == Pieces(chunks)
    ensures WentOn(l, w, base, run, turn)
  { }

  // ---------- the run ----------

  /** How a run with a willing consumer ends. */
  ghost predicate EndsSo(l: Loop, w: World, base: seq<Message>, o: Outcome) {
    && o.result.messages == o.run.msgs && |o.run.sent| == o.result.turns
    && if |o.run.msgs| == |base| + 2 * o.result.turns then
         && Onward(l, w, base, o.result.turns, o.run) && o.result.turns == l.maxTurns
         && o.result.finish == FinishError && o.result.termCode == "DIAGNOSE.MAX_TURNS" && o.err == Some(ERR_MAX_TURNS)
       else
         o.result.turns > 0 && EndedIn(l, w, base, o.result.turns - 1, o.run, o.result.finish, o.result.termCode, o.err)
  }

  lemma CappedEnds(l: Loop, w: World, base: seq<Message>, run: Run)
    requires Onward(l, w, base, l.maxTurns, run)
    ensures Onward(l, w, base, l.maxTurns, Emitted(run, Finish(l.maxTurns, FinishError, Code(ERR_MAX_TURNS), Some(ERR_MAX_TURNS))))
  {
    var last := Emitted(run, Finish(l.maxTurns, FinishError, Code(ERR_MAX_TURNS), Some(ERR_MAX_TURNS)));
    QuietSnoc(run, Finish(l.maxTurns, FinishError, Code(ERR_MAX_TURNS), Some(ERR_MAX_TURNS)));
    hide TextOf, WentOn;
    forall i | 0 <= i < l.maxTurns ensures WentOn(l, w, |base|, last, i) {
      WentOnStays(l, w, |base|, run, last, i);
    }
  }

  lemma {:induction false} RunEndsSo(l: Loop, w: World, tools: seq<ToolSchema>, base: seq<Message>, turn: nat, run: Run)
    requires turn <= l.maxTurns && Willing(w) && Onward(l, w, base, turn, run)
    ensures EndsSo(l, w, base, RunFrom(l, w, tools, turn + 1, run))
    decreases l.maxTurns - turn
  {
    hide Turn, Onward, EndedIn;
    if turn == l.maxTurns {
      CappedEnds(l, w, base, run);
      OnwardCounts(l, w, base, turn, run);
    } else {
      TurnOnward(l, w, tools, base, turn, run);
      var t := Turn(l, w, tools, turn + 1, run);
      if t.Continue? {
        RunEndsSo(l, w, tools, base, turn + 1, t.run);
      } else {
        EndedCounts(l, w, base, turn, t.run, t.finish, t.code, t.err);
      }
    }
  }

  lemma OnwardCounts(l: Loop, w: World, base: seq<Message>, turn: nat, run: Run)
    requires Onward(l, w, base, turn, run)
    ensures |run.msgs| == |base| + 2 * turn && |run.sent| == turn
  { }

  lemma EndedCounts(l: Loop, w: World, base: seq<Message>, turn: nat, run: Run, finish: FinishReason, code: string, err: Option<Error>)
    requires EndedIn(l, w, base, turn, run, finish, code, err)
    ensures |run.msgs| == |base| + 2 * turn && |run.sent| == turn + 1
  { }

  // ---------- main results ----------

  /** Every run: each turn but the last asks with the transcript so far, streams tool calls
      that can be made, and commits exactly what the stream said and called, which is what its
      events told. The last turn ends the run as its stream did; if it too asked for calls
      that can be made, one of them ended the run, or the turns are used up. */
  lemma RunEndsAsItsStreamDid(l: Loop, w: World, req: Request)
    requires l.registry.Some? ==> RegistryOk(l.registry.value)
    requires Willing(w)
    ensures EndsSo(l, w, req.messages, RunSpec(l, w, req))
  {
    var run := Start(req);
    assert Onward(l, w, req.messages, 0, run);
    hide RunFrom, Onward, EndsSo;
    RunEndsSo(l, w, Offered(l, req), req.messages, 0, run);
  }

  /** What the provider gave in the last turn of a run. */
  function LastStream(w: World, run: Run): StreamOutcome
    requires run.sent != []
  {
    w.stream(|run.sent|, run.sent[|run.sent| - 1].request)
  }

  /** A stream after which a run has nothing to complain of. */
  predicate Clean(s: StreamOutcome) {
    && s.Streamed? && LastFinish(s.chunks).Some?
    && var c := LastFinish(s.chunks).value;
       c.finish in {FinishStop, FinishStopSequence, FinishLength} || (c.finish in {FinishCancelled, FinishError} && c.err.None?)
  }

  lemma CleanIff(l: Loop, w: World, turn: nat, s: StreamOutcome, finish: FinishReason, code: string, err: Option<Error>)
    requires EndedByStream(l, w, turn, s, finish, code, err)
    ensures err.None? <==> Clean(s)
    ensures err.None? ==> finish == LastFinish(s.chunks).value.finish && code == ""
  {
    hide LastFinish, CallsOf;
  }

  lemma CallableIsNotClean(l: Loop, s: StreamOutcome)
    requires Callable(l, s)
    ensures !Clean(s)
  {
    hide LastFinish, CallsOf;
  }

  /** A run returns no error exactly when its last stream finished by Stop, StopSequence or
      Length, or finished as cancelled or in error without saying why. */
  lemma NoErrorIff(l: Loop, w: World, req: Request)
    requires l.registry.Some? ==> RegistryOk(l.registry.value)
    requires Willing(w) && l.Built()
    ensures var o := RunSpec(l, w, req);
            && o.run.sent != []
            && (o.err.None? <==> Clean(LastStream(w, o.run)))
            && (o.err.None? ==> o.result.finish == LastFinish(LastStream(w, o.run).chunks).value.finish && o.result.termCode == "")
  {
    RunEndsAsItsStreamDid(l, w, req);
    var o := RunSpec(l, w, req);
    hide RunSpec, WentOn, LastFinish, CallsOf, TextOf, Said, Pieces, Clean, Callable, EndedByStream;
    var s := LastStream(w, o.run);
    if |o.run.msgs| == |req.messages| + 2 * o.result.turns {
      assert WentOn(l, w, |req.messages|, o.run, o.result.turns - 1);
      WentOnCalls(l, w, |req.messages|, o.run, o.result.turns - 1);
      CallableIsNotClean(l, s);
    } else if Callable(l, s) {
      CallableIsNotClean(l, s);
    } else {
      CleanIff(l, w, o.result.turns, s, o.result.finish, o.result.termCode, o.err);
    }
  }

  lemma WentOnCalls(l: Loop, w: World, base: nat, run: Run, i: nat)
    requires i < |run.sent| && WentOn(l, w, base, run, i)
    ensures Callable(l, w.stream(i + 1, run.sent[i].request))
  { }
}
