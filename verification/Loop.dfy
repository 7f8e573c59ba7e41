/** The multi-turn diagnose loop (internal/app/diagnose/loop.go).

    What the loop cannot compute itself is a World: the provider, the tools, the
    consumer's emit, the state of the total deadline, JSON and SHA-256. Each is a
    function, indexed by turn and call position where two calls may differ.
    `RunSpec` and its parts give the run as functions; the methods at the end are
    the loops of the source, proved to compute them. */
module DiagnoseLoop {
  import opened Prelude
  import opened Llm
  import opened Dedup
  import Scope

  // ---------- the loop's surroundings ----------

  datatype Tool = Tool(schema: ToolSchema, cacheable: Option<bool>) // None: no CacheableTool interface

  datatype Registry = Registry(tools: map<string, Tool>, names: seq<string>)

  datatype StreamOutcome = Refused(err: Error) | Streamed(chunks: seq<Chunk>, streamErr: Option<Error>)

  datatype ExecOutcome = Output(out: ToolOutput) | Raised(err: Error)

  datatype World = World(
    stream: (nat, Request) -> StreamOutcome,
    execute: (nat, nat, string, Input) -> ExecOutcome,
    totalErr: (nat, nat) -> Option<Error>, // totalCtx.Err() in turn t, at call position p (0: the provider call)
    emitErr: seq<Event> -> Option<Error>,  // what emit answers to the last event of this history
    marshal: Input -> Option<string>,
    digest: string -> Digest,
    quote: string -> string)

  datatype Options = Options(registry: Option<Registry>, maxTurns: int, dedupEnabled: bool, dedupWindow: int)

  datatype Loop = Loop(registry: Option<Registry>, maxTurns: nat, dedupEnabled: bool, dedupWindow: nat) {
    predicate Built() { 1 <= maxTurns && 1 <= dedupWindow }
  }

  const DEFAULT_MAX_TURNS := 16
  const DEFAULT_DEDUP_WINDOW := 3

  function NewLoop(opt: Options): (l: Loop)
    ensures l.Built() && l.registry == opt.registry && l.dedupEnabled == opt.dedupEnabled
    ensures if opt.maxTurns > 0 then l.maxTurns == opt.maxTurns else l.maxTurns == 16
    ensures if opt.dedupWindow > 0 then l.dedupWindow == opt.dedupWindow else l.dedupWindow == 3
  {
    Loop(opt.registry,
         if opt.maxTurns <= 0 then DEFAULT_MAX_TURNS else opt.maxTurns,
         opt.dedupEnabled,
         if opt.dedupWindow <= 0 then DEFAULT_DEDUP_WINDOW else opt.dedupWindow)
  }

  predicate Known(l: Loop, name: string) {
    l.registry.Some? && name in l.registry.value.tools
  }

  /** Registry invariant: every listed name is registered under its schema's name. */
  ghost predicate RegistryOk(r: Registry) {
    && (forall n :: n in r.names <==> n in r.tools)
    && (forall n :: n in r.tools ==> r.tools[n].schema.name == n)
  }

  function Schemas(r: Registry, names: seq<string>): seq<ToolSchema>
    requires forall n :: n in names ==> n in r.tools
  {
    if names == [] then []
    else Schemas(r, names[..|names| - 1]) + [r.tools[names[|names| - 1]].schema]
  }

  function Offered(l: Loop, req: Request): seq<ToolSchema>
    requires l.registry.Some? ==> RegistryOk(l.registry.value)
  {
    req.tools + if l.registry.Some? then Schemas(l.registry.value, l.registry.value.names) else []
  }

  // ---------- run state and its history ----------

  /** How one tool call of phase 2 was answered. */
  datatype Mode = Denied | Hit(out: ToolOutput) | Ran(outcome: ExecOutcome)

  /** One dispatched call: the key it derived, if any, and the filter it met. */
  datatype Call = Call(turn: nat, use: ToolUse, key: Option<string>, mode: Mode, scope: Scope.Filter)

  /** One provider request, the filter it met, and how many calls had been dispatched before it. */
  datatype Sent = Sent(turn: nat, at: nat, scope: Scope.Filter, request: Request)

  datatype Run = Run(
    msgs: seq<Message>,
    filter: Scope.Filter,
    entries: map<string, Entry>,
    events: seq<Event>,
    calls: seq<Call>,
    sent: seq<Sent>)

  datatype Result = Result(messages: seq<Message>, finish: FinishReason, turns: nat, termCode: string)

  datatype Outcome = Outcome(result: Result, err: Option<Error>, run: Run)

  /** A turn either ends the run or leaves the state of the next turn. */
  datatype Turned = Continue(run: Run) | Halt(run: Run, finish: FinishReason, code: string, err: Option<Error>)

  function Emitted(run: Run, e: Event): Run {
    run.(events := run.events + [e])
  }

  function Finished(run: Run, turn: nat, finish: FinishReason, code: string, err: Option<Error>): Turned {
    Halt(Emitted(run, Finish(turn, finish, code, err)), finish, code, err)
  }

  function ClassifyEmitErr(e: Error): FinishReason {
    if e.cause == ContextCanceled || e.cause == ContextDeadline then FinishCancelled else FinishError
  }

  function EmitFailed(run: Run, e: Error): Turned {
    Halt(run, ClassifyEmitErr(e), "", Some(e))
  }

  function Code(e: Error): string {
    if e.cause.Registered? then e.cause.code else ""
  }

  predicate DeadlineHit(total: Option<Error>) {
    total.Some? && total.value.cause == ContextDeadline
  }

  datatype Terminal = Terminal(finish: FinishReason, code: string, err: Error)

  function ClassifyTerminal(e: Error, total: Option<Error>): Terminal {
    match e.cause
    case ContextCanceled =>
      if DeadlineHit(total) then Terminal(FinishError, Code(ERR_TOTAL_TIMEOUT), ERR_TOTAL_TIMEOUT)
      else Terminal(FinishCancelled, "", e)
    case ContextDeadline =>
      if DeadlineHit(total) then Terminal(FinishError, Code(ERR_TOTAL_TIMEOUT), ERR_TOTAL_TIMEOUT)
      else Terminal(FinishError, "", ERR_TIMEOUT)
    case _ => Terminal(FinishError, "", e)
  }

  datatype Verdict = Feedback(result: ToolResult) | Fatal(cause: Terminal)

  function ClassifyToolErr(id: string, outcome: ExecOutcome, total: Option<Error>): Verdict {
    match outcome
    case Output(out) => Feedback(ToolResult(id, out.content, out.isError))
    case Raised(e) =>
      match e.cause
      case ContextCanceled => Fatal(Terminal(FinishCancelled, "", e))
      case ContextDeadline =>
        if DeadlineHit(total) then Fatal(Terminal(FinishError, Code(ERR_TOTAL_TIMEOUT), ERR_TOTAL_TIMEOUT))
        else Feedback(ToolResult(id, ERR_TOOL_TIMEOUT.text, true))
      case _ => Feedback(ToolResult(id, e.text, true))
  }

  // ---------- one turn ----------

  /** What draining the stream accumulates. */
  datatype Drained = Drained(
    run: Run, text: string, uses: seq<ToolUse>, finish: FinishReason, finishErr: Option<Error>, emitErr: Option<Error>)

  function TakeToken(w: World, turn: nat, c: Chunk, d: Drained): Drained {
    if c.token == "" then d
    else
      var run := Emitted(d.run, Text(turn, c.token, c.thinking));
      match w.emitErr(run.events)
      case Some(e) => d.(run := run, emitErr := Some(e))
      case None => d.(run := run, text := if c.thinking then d.text else d.text + c.token)
  }

  function TakeFinish(c: Chunk, d: Drained): Drained {
    if c.finish == FinishUnset then d
    else d.(finish := c.finish, finishErr := c.err, uses := if c.toolUses != [] then c.toolUses else d.uses)
  }

  function Drain(w: World, turn: nat, chunks: seq<Chunk>, d: Drained): Drained {
    if chunks == [] then d
    else
      var t := TakeToken(w, turn, chunks[0], d);
      if t.emitErr.Some? then t else Drain(w, turn, chunks[1..], TakeFinish(chunks[0], t))
  }

  /** A stream that ended without a finish reason gets one from its error. */
  function Promoted(d: Drained, streamErr: Option<Error>, total: Option<Error>): Drained {
    if d.finish != FinishUnset then d
    else
      match streamErr
      case Some(e) =>
        var t := ClassifyTerminal(e, total);
        d.(finish := t.finish, finishErr := Some(t.err))
      case None => d.(finish := FinishError, finishErr := Some(ERR_STREAM_EMPTY))
  }

  datatype Announcing = Announced(run: Run) | Unannounced(run: Run, err: Error)

  /** Phase 1: all tool calls are announced before any runs. */
  function Announce(w: World, turn: nat, uses: seq<ToolUse>, run: Run): Announcing {
    if uses == [] then Announced(run)
    else
      var next := Emitted(run, CallEvent(turn, uses[0]));
      match w.emitErr(next.events)
      case Some(e) => Unannounced(next, e)
      case None => Announce(w, turn, uses[1..], next)
  }

  /** The key of a call, or None when it must bypass the cache. */
  function CallKey(l: Loop, w: World, use: ToolUse): Option<string>
    requires Known(l, use.name)
  {
    var declared := l.registry.value.tools[use.name].cacheable;
    if !l.dedupEnabled || declared == Some(false) then None
    else
      match w.marshal(use.input)
      case None => None
      case Some(raw) => Some(Key(use.name, w.digest(raw)))
  }

  predicate Served(l: Loop, entries: map<string, Entry>, key: Option<string>, turn: nat) {
    key.Some? && key.value in entries && Live(entries[key.value], l.dedupWindow, turn)
  }

  function Join(names: seq<string>): string {
    if names == [] then ""
    else if |names| == 1 then names[0]
    else names[0] + ", " + Join(names[1..])
  }

  function DeniedContent(w: World, name: string, allowed: seq<string>): string {
    "SKILL.SCOPE_TOOL_DENIED: tool " + w.quote(name) + " is not allowed in the active skill scope. Allowed: ["
    + Join(allowed) + "] (+ Skill). Hint: use an allowed tool or invoke another skill."
  }

  /** The filter a dispatch leaves behind. */
  function ScopeAfter(filter: Scope.Filter, mode: Mode): Scope.Filter {
    match mode
    case Hit(out) => if !out.isError && out.toolFilter.Some? then Scope.Normalized(out.toolFilter) else filter
    case Ran(Output(out)) => if !out.isError && out.toolFilter.Some? then Scope.Normalized(out.toolFilter) else filter
    case _ => filter
  }

  /** The cache a dispatch leaves behind: only a fresh success is stored. */
  function EntriesAfter(entries: map<string, Entry>, c: Call): map<string, Entry> {
    match c.mode
    case Ran(Output(out)) =>
      if c.key.Some? && !out.isError then entries[c.key.value := Entry(out, c.turn)] else entries
    case _ => entries
  }

  datatype Replying = Reply(run: Run, result: ToolResult, cached: bool) | Ended(halt: Turned)

  /** One call of phase 2, up to but not including its result event. */
  function Dispatched(l: Loop, w: World, turn: nat, pos: nat, use: ToolUse, run: Run): Replying
    requires Known(l, use.name)
  {
    if Scope.Denied(run.filter, use.name) then
      Reply(run.(calls := run.calls + [Call(turn, use, None, Denied, run.filter)]),
            ToolResult(use.id, DeniedContent(w, use.name, run.filter.value), true), false)
    else
      var key := CallKey(l, w, use);
      var total := w.totalErr(turn, pos + 1);
      if Served(l, run.entries, key, turn) then
        if total.Some? then
          var t := ClassifyTerminal(total.value, total);
          Ended(Finished(run, turn, t.finish, t.code, Some(t.err)))
        else
          var out := run.entries[key.value].out;
          var c := Call(turn, use, key, Hit(out), run.filter);
          Reply(run.(calls := run.calls + [c], filter := ScopeAfter(run.filter, c.mode)),
                ToolResult(use.id, out.content, out.isError), true)
      else
        var c := Call(turn, use, key, Ran(w.execute(turn, pos, use.name, use.input)), run.filter);
        var after := run.(calls := run.calls + [c]);
        match ClassifyToolErr(use.id, c.mode.outcome, total)
        case Fatal(t) => Ended(Finished(after, turn, t.finish, t.code, Some(t.err)))
        case Feedback(result) =>
          Reply(after.(filter := ScopeAfter(run.filter, c.mode), entries := EntriesAfter(run.entries, c)), result, false)
  }

  datatype Answering = Answered(run: Run, results: seq<ToolResult>) | Aborted(halt: Turned)

  /** Phase 2 from position |results| on. */
  function DispatchFrom(l: Loop, w: World, turn: nat, uses: seq<ToolUse>, run: Run, results: seq<ToolResult>): Answering
    requires |results| <= |uses|
    requires forall u :: u in uses ==> Known(l, u.name)
    decreases |uses| - |results|
  {
    if |results| == |uses| then Answered(run, results)
    else
      match Dispatched(l, w, turn, |results|, uses[|results|], run)
      case Ended(halt) => Aborted(halt)
      case Reply(next, result, cached) =>
        var told := Emitted(next, ResultEvent(turn, result, cached));
        match w.emitErr(told.events)
        case Some(e) => Aborted(EmitFailed(told, e))
        case None => DispatchFrom(l, w, turn, uses, told, results + [result])
  }

  function UseBlocks(uses: seq<ToolUse>): seq<Block> {
    seq(|uses|, i requires 0 <= i < |uses| => ToolUseBlock(uses[i]))
  }

  function ResultBlocks(results: seq<ToolResult>): seq<Block> {
    seq(|results|, i requires 0 <= i < |results| => ToolResultBlock(results[i]))
  }

  function AssistantTurn(text: string, uses: seq<ToolUse>): Message {
    Message(RoleAssistant, (if text != "" then [TextBlock(text)] else []) + UseBlocks(uses))
  }

  function UserTurn(results: seq<ToolResult>): Message {
    Message(RoleUser, ResultBlocks(results))
  }

  predicate AllKnown(l: Loop, uses: seq<ToolUse>) {
    forall u :: u in uses ==> Known(l, u.name)
  }

  /** A FinishToolUse turn: validate, announce, dispatch, commit both turns at once. */
  function ToolTurn(l: Loop, w: World, turn: nat, run: Run, text: string, uses: seq<ToolUse>): Turned {
    if uses == [] then Finished(run, turn, FinishError, "", Some(ERR_DECODE_FAILED))
    else if !AllKnown(l, uses) then Finished(run, turn, FinishToolUse, Code(ERR_TOOL_UNKNOWN), Some(ERR_TOOL_UNKNOWN))
    else
      match Announce(w, turn, uses, run)
      case Unannounced(r, e) => EmitFailed(r, e)
      case Announced(r) =>
        match DispatchFrom(l, w, turn, uses, r, [])
        case Aborted(halt) => halt
        case Answered(done, results) =>
          Continue(done.(msgs := done.msgs + [AssistantTurn(text, uses), UserTurn(results)]))
  }

  function Settle(l: Loop, w: World, turn: nat, d: Drained): Turned {
    match d.finish
    case FinishStop | FinishStopSequence | FinishLength => Finished(d.run, turn, d.finish, "", None)
    case FinishRefusal => Finished(d.run, turn, d.finish, "", Some(ERR_PROVIDER_REFUSAL))
    case FinishCancelled => Finished(d.run, turn, d.finish, "", d.finishErr)
    case FinishError =>
      var code := if d.finishErr.Some? && d.finishErr.value.cause == ERR_TOTAL_TIMEOUT.cause then Code(ERR_TOTAL_TIMEOUT) else "";
      Finished(d.run, turn, d.finish, code, d.finishErr)
    case FinishPause => Finished(d.run, turn, d.finish, Code(ERR_UNEXPECTED_PAUSE), Some(ERR_UNEXPECTED_PAUSE))
    case FinishToolUse => ToolTurn(l, w, turn, d.run, d.text, d.uses)
    case FinishUnset => Finished(d.run, turn, FinishError, "", Some(ERR_DECODE_FAILED))
  }

  function Turn(l: Loop, w: World, tools: seq<ToolSchema>, turn: nat, run: Run): Turned {
    var begun := Emitted(run, TurnStart(turn));
    match w.emitErr(begun.events)
    case Some(e) => EmitFailed(begun, e)
    case None =>
      var request := Request(run.msgs, Scope.Narrowed(tools, run.filter));
      var asked := begun.(sent := begun.sent + [Sent(turn, |begun.calls|, begun.filter, request)]);
      match w.stream(turn, request)
      case Refused(perr) =>
        var t := ClassifyTerminal(perr, w.totalErr(turn, 0));
        Finished(asked, turn, t.finish, t.code, Some(t.err))
      case Streamed(chunks, streamErr) =>
        var d := Drain(w, turn, chunks, Drained(asked, "", [], FinishUnset, None, None));
        if d.emitErr.Some? then EmitFailed(d.run, d.emitErr.value)
        else Settle(l, w, turn, Promoted(d, streamErr, w.totalErr(turn, 0)))
  }

  // ---------- the whole run ----------

  function Concluded(t: Turned, turns: nat): Outcome
    requires t.Halt?
  {
    Outcome(Result(t.run.msgs, t.finish, turns, t.code), t.err, t.run)
  }

  function RunFrom(l: Loop, w: World, tools: seq<ToolSchema>, turn: nat, run: Run): Outcome
    requires 1 <= turn <= l.maxTurns + 1
    decreases l.maxTurns + 1 - turn
  {
    if turn > l.maxTurns then
      Concluded(Finished(run, turn - 1, FinishError, Code(ERR_MAX_TURNS), Some(ERR_MAX_TURNS)), turn - 1)
    else
      var t := Turn(l, w, tools, turn, run);
      match t
      case Continue(next) => RunFrom(l, w, tools, turn + 1, next)
      case Halt(_, _, _, _) => Concluded(t, turn)
  }

  function Start(req: Request): Run {
    Run(req.messages, None, map[], [], [], [])
  }

  function RunSpec(l: Loop, w: World, req: Request): Outcome
    requires l.registry.Some? ==> RegistryOk(l.registry.value)
  {
    RunFrom(l, w, Offered(l, req), 1, Start(req))
  }

  // ---------- the loops of the source ----------

  method RegistrySchemas(r: Registry) returns (out: seq<ToolSchema>)
    requires RegistryOk(r)
    ensures out == Schemas(r, r.names)
  {
    out := [];
    for i := 0 to |r.names|
      invariant out == Schemas(r, r.names[..i])
    {
      assert r.names[..i + 1][..i] == r.names[..i];
      out := out + [r.tools[r.names[i]].schema];
    }
    assert r.names[..|r.names|] == r.names;
  }

  method DrainStream(w: World, turn: nat, chunks: seq<Chunk>, run: Run) returns (d: Drained)
    ensures d == Drain(w, turn, chunks, Drained(run, "", [], FinishUnset, None, None))
  {
    d := Drained(run, "", [], FinishUnset, None, None);
    for i := 0 to |chunks|
      invariant Drain(w, turn, chunks[i..], d) == Drain(w, turn, chunks, Drained(run, "", [], FinishUnset, None, None))
      invariant d.emitErr.None?
    {
      var c := chunks[i];
      assert chunks[i..][0] == c && chunks[i..][1..] == chunks[i + 1..];
      if c.token != "" {
        d := d.(run := Emitted(d.run, Text(turn, c.token, c.thinking)));
        var eerr := w.emitErr(d.run.events);
        if eerr.Some? {
          d := d.(emitErr := eerr);
          return;
        }
        if !c.thinking {
          d := d.(text := d.text + c.token);
        }
      }
      if c.finish != FinishUnset {
        d := d.(finish := c.finish, finishErr := c.err);
        if |c.toolUses| > 0 {
          d := d.(uses := c.toolUses);
        }
      }
    }
  }

  method AnnounceCalls(w: World, turn: nat, uses: seq<ToolUse>, run: Run) returns (r: Announcing)
    ensures r == Announce(w, turn, uses, run)
  {
    var cur := run;
    for i := 0 to |uses|
      invariant Announce(w, turn, uses[i..], cur) == Announce(w, turn, uses, run)
    {
      assert uses[i..][0] == uses[i] && uses[i..][1..] == uses[i + 1..];
      cur := Emitted(cur, CallEvent(turn, uses[i]));
      var eerr := w.emitErr(cur.events);
      if eerr.Some? {
        return Unannounced(cur, eerr.value);
      }
    }
    r := Announced(cur);
  }

  /** `dedupResolve`: the key a call derives and what the cache holds for it. */
  method DedupResolve(l: Loop, w: World, dc: DedupCache?, use: ToolUse, turn: nat)
      returns (key: Option<string>, hit: Option<ToolOutput>)
    requires Known(l, use.name)
    requires dc != null ==> dc.enabled == l.dedupEnabled && dc.window == l.dedupWindow
    ensures dc == null ==> key == None && hit == None
    ensures dc != null ==> key == CallKey(l, w, use)
    ensures dc != null ==> (hit.Some? <==> Served(l, dc.entries, key, turn))
    ensures hit.Some? ==> hit.value == dc.entries[key.value].out
  {
    if dc == null {
      return None, None;
    }
    var cacheable := dc.enabled;
    if cacheable {
      var declared := l.registry.value.tools[use.name].cacheable;
      if declared.Some? {
        cacheable := declared.value;
      }
    }
    if !cacheable {
      return None, None;
    }
    var raw := w.marshal(use.input);
    if raw.None? {
      return None, None;
    }
    key := Some(Key(use.name, w.digest(raw.value)));
    hit := dc.Lookup(key.value, turn);
  }

  /** One call of phase 2, with the cache in its own object. */
  method DispatchCall(l: Loop, w: World, dc: DedupCache, turn: nat, pos: nat, use: ToolUse, run: Run) returns (r: Replying)
    requires dc.enabled == l.dedupEnabled && dc.window == l.dedupWindow
    requires dc.entries == run.entries
    requires Known(l, use.name)
    modifies dc
    ensures r == Dispatched(l, w, turn, pos, use, run)
    ensures r.Reply? ==> dc.entries == r.run.entries
  {
    var denied := Scope.ScopeDenied(run.filter, use.name);
    if denied {
      return Reply(run.(calls := run.calls + [Call(turn, use, None, Denied, run.filter)]),
                   ToolResult(use.id, DeniedContent(w, use.name, run.filter.value), true), false);
    }
    var key, hit := DedupResolve(l, w, dc, use, turn);
    var total := w.totalErr(turn, pos + 1);
    var outcome: ExecOutcome;
    var mode: Mode;
    if hit.Some? {
      if total.Some? {
        var t := ClassifyTerminal(total.value, total);
        return Ended(Finished(run, turn, t.finish, t.code, Some(t.err)));
      }
      outcome := Output(hit.value);
      mode := Hit(hit.value);
    } else {
      outcome := w.execute(turn, pos, use.name, use.input);
      mode := Ran(outcome);
    }
    var verdict := ClassifyToolErr(use.id, outcome, total);
    var cur := run.(calls := run.calls + [Call(turn, use, key, mode, run.filter)]);
    if verdict.Fatal? {
      var t := verdict.cause;
      return Ended(Finished(cur, turn, t.finish, t.code, Some(t.err)));
    }
    if outcome.Output? && !outcome.out.isError && outcome.out.toolFilter.Some? {
      var normalized := Scope.NormalizeFilter(outcome.out.toolFilter);
      cur := cur.(filter := normalized);
    }
    if hit.None? && key.Some? && outcome.Output? && !outcome.out.isError {
      dc.Store(key.value, outcome.out, turn);
      cur := cur.(entries := dc.entries);
    }
    r := Reply(cur, verdict.result, hit.Some?);
  }

  /** Phase 2 of a tool turn. */
  method DispatchCalls(l: Loop, w: World, dc: DedupCache, turn: nat, uses: seq<ToolUse>, run: Run) returns (r: Answering)
    requires dc.enabled == l.dedupEnabled && dc.window == l.dedupWindow
    requires dc.entries == run.entries
    requires AllKnown(l, uses)
    modifies dc
    ensures r == DispatchFrom(l, w, turn, uses, run, [])
    ensures r.Answered? ==> dc.entries == r.run.entries
  {
    hide Dispatched, CallKey;
    var cur := run;
    var results: seq<ToolResult> := [];
    for i := 0 to |uses|
      invariant |results| == i
      invariant dc.entries == cur.entries
      invariant DispatchFrom(l, w, turn, uses, cur, results) == DispatchFrom(l, w, turn, uses, run, [])
    {
      var reply := DispatchCall(l, w, dc, turn, i, uses[i], cur);
      if reply.Ended? {
        return Aborted(reply.halt);
      }
      results := results + [reply.result];
      cur := Emitted(reply.run, ResultEvent(turn, reply.result, reply.cached));
      var eerr := w.emitErr(cur.events);
      if eerr.Some? {
        return Aborted(EmitFailed(cur, eerr.value));
      }
    }
    r := Answered(cur, results);
  }

  method UnknownName(l: Loop, uses: seq<ToolUse>) returns (found: bool)
    ensures found <==> !AllKnown(l, uses)
  {
    for i := 0 to |uses|
      invariant forall j :: 0 <= j < i ==> Known(l, uses[j].name)
    {
      if !Known(l, uses[i].name) {
        return true;
      }
    }
    return false;
  }

  /** The FinishToolUse arm of the switch. */
  method RunTools(l: Loop, w: World, dc: DedupCache, turn: nat, run: Run, text: string, uses: seq<ToolUse>) returns (t: Turned)
    requires dc.enabled == l.dedupEnabled && dc.window == l.dedupWindow
    requires dc.entries == run.entries
    modifies dc
    ensures t == ToolTurn(l, w, turn, run, text, uses)
    ensures t.Continue? ==> dc.entries == t.run.entries
  {
    if |uses| == 0 {
      return Finished(run, turn, FinishError, "", Some(ERR_DECODE_FAILED));
    }
    var unknown := UnknownName(l, uses);
    if unknown {
      return Finished(run, turn, FinishToolUse, Code(ERR_TOOL_UNKNOWN), Some(ERR_TOOL_UNKNOWN));
    }
    var phase1 := AnnounceCalls(w, turn, uses, run);
    if phase1.Unannounced? {
      return EmitFailed(phase1.run, phase1.err);
    }
    AnnounceOnlyEmits(w, turn, uses, run);
    var phase2 := DispatchCalls(l, w, dc, turn, uses, phase1.run);
    if phase2.Aborted? {
      AbortsHalt(l, w, turn, uses, phase1.run, []);
      return phase2.halt;
    }
    t := Continue(phase2.run.(msgs := phase2.run.msgs + [AssistantTurn(text, uses), UserTurn(phase2.results)]));
  }

  /** Announcing calls and draining a stream touch nothing but the event log. */
  lemma {:induction false} AnnounceOnlyEmits(w: World, turn: nat, uses: seq<ToolUse>, run: Run)
    ensures var r := Announce(w, turn, uses, run).run; r == run.(events := r.events)
  {
    if uses != [] {
      AnnounceOnlyEmits(w, turn, uses[1..], Emitted(run, CallEvent(turn, uses[0])));
    }
  }

  lemma {:induction false} DrainOnlyEmits(w: World, turn: nat, chunks: seq<Chunk>, d: Drained)
    ensures var r := Drain(w, turn, chunks, d).run; r == d.run.(events := r.events)
  {
    if chunks != [] {
      DrainOnlyEmits(w, turn, chunks[1..], TakeFinish(chunks[0], TakeToken(w, turn, chunks[0], d)));
    }
  }

  lemma {:induction false} AbortsHalt(l: Loop, w: World, turn: nat, uses: seq<ToolUse>, run: Run, results: seq<ToolResult>)
    requires |results| <= |uses| && AllKnown(l, uses)
    ensures var r := DispatchFrom(l, w, turn, uses, run, results); r.Aborted? ==> r.halt.Halt?
    decreases |uses| - |results|
  {
    if |results| < |uses| {
      var d := Dispatched(l, w, turn, |results|, uses[|results|], run);
      if d.Reply? {
        AbortsHalt(l, w, turn, uses, Emitted(d.run, ResultEvent(turn, d.result, d.cached)), results + [d.result]);
      }
    }
  }

  /** One pass of the turn loop. */
  method RunTurn(l: Loop, w: World, dc: DedupCache, tools: seq<ToolSchema>, turn: nat, before: Run) returns (t: Turned)
    requires dc.enabled == l.dedupEnabled && dc.window == l.dedupWindow
    requires dc.entries == before.entries
    modifies dc
    ensures t == Turn(l, w, tools, turn, before)
    ensures t.Continue? ==> dc.entries == t.run.entries
  {
    hide Drain, ToolTurn, ClassifyTerminal, Scope.Narrowed;
    var run := Emitted(before, TurnStart(turn));
    var eerr := w.emitErr(run.events);
    if eerr.Some? {
      return EmitFailed(run, eerr.value);
    }
    var narrowed := Scope.ApplyFilter(tools, run.filter);
    var request := Request(run.msgs, narrowed);
    run := run.(sent := run.sent + [Sent(turn, |run.calls|, run.filter, request)]);
    var stream := w.stream(turn, request);
    if stream.Refused? {
      var c := ClassifyTerminal(stream.err, w.totalErr(turn, 0));
      return Finished(run, turn, c.finish, c.code, Some(c.err));
    }
    var d := DrainStream(w, turn, stream.chunks, run);
    if d.emitErr.Some? {
      return EmitFailed(d.run, d.emitErr.value);
    }
    DrainOnlyEmits(w, turn, stream.chunks, Drained(run, "", [], FinishUnset, None, None));
    d := Promoted(d, stream.streamErr, w.totalErr(turn, 0));
    if d.finish == FinishToolUse {
      t := RunTools(l, w, dc, turn, d.run, d.text, d.uses);
    } else {
      t := Settle(l, w, turn, d);
    }
  }

  /** Loop.Run. */
  method RunLoop(l: Loop, w: World, req: Request) returns (o: Outcome)
    requires l.registry.Some? ==> RegistryOk(l.registry.value)
    ensures o == RunSpec(l, w, req)
  {
    hide Turn;
    var run := Start(req);
    var tools := req.tools;
    if l.registry.Some? {
      var schemas := RegistrySchemas(l.registry.value);
      tools := tools + schemas;
    } else {
      assert tools + [] == tools;
    }
    var dc := new DedupCache(l.dedupEnabled, l.dedupWindow);
    for turn := 1 to l.maxTurns + 1
      invariant dc.entries == run.entries
      invariant RunFrom(l, w, tools, turn, run) == RunSpec(l, w, req)
    {
      var t := RunTurn(l, w, dc, tools, turn, run);
      if t.Halt? {
        return Concluded(t, turn);
      }
      run := t.run;
    }
    o := Concluded(Finished(run, l.maxTurns, FinishError, Code(ERR_MAX_TURNS), Some(ERR_MAX_TURNS)), l.maxTurns);
  }
}
