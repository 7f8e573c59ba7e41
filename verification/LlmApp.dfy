/** From diagnose events to committed scrollback: the emit closure
    (internal/app/cli/llmapp/loop_adapter.go), the run snapshot it builds (snapshot.go)
    and the chat model's control handler (model.go). The token preview is arbitrary:
    whatever it drains is a parameter. */
module LlmApp {
  import opened Prelude
  import opened Llm

  datatype Speaker = NoSpeaker | SpeakerUser | SpeakerAssistant

  datatype ToolState = Running | Resolved | Errored

  datatype Node =
    | MessageNode(text: string, speaker: Speaker, truncated: bool, empty: bool)
    | ToolUseNode(id: string, name: string, input: Input, state: ToolState)
    | ToolResultNode(id: string, name: string, content: string, isError: bool, cached: bool)
    | ThinkingNode(content: string)
    | OtherNode(text: string)

  function Marker(text: string): Node { MessageNode(text, NoSpeaker, false, false) }

  datatype ToolEvent = ToolEvent(name: string, input: Input, result: string, isError: bool, cached: bool)

  /** report.RunSnapshot without its two clock readings. */
  datatype Snapshot = Snapshot(
    prompt: string, finalAnswer: string, timeline: seq<ToolEvent>, turns: nat, finish: FinishReason, termCode: string)

  /** streamControlMsg: one variant per message. */
  datatype Control =
    | PreviewTick
    | Sealed(text: string, truncated: bool)
    | Thinking(token: string)
    | Use(use: ToolUse)
    | Reply(result: ToolResult, cached: bool)
    | Finishing(finish: FinishReason, termCode: string, err: Option<Error>, snapshot: Snapshot)

  // ---------- the snapshot builder ----------

  datatype Captured = Captured(answer: string, timeline: seq<ToolEvent>, idIndex: map<string, nat>)

  ghost predicate Indexed(c: Captured) {
    forall id :: id in c.idIndex ==> c.idIndex[id] < |c.timeline|
  }

  function AddCall(c: Captured, use: ToolUse): Captured {
    c.(timeline := c.timeline + [ToolEvent(use.name, use.input, "", false, false)],
       idIndex := c.idIndex[use.id := |c.timeline|])
  }

  function AddResult(c: Captured, r: ToolResult, cached: bool): Captured
    requires Indexed(c)
  {
    if r.toolUseId !in c.idIndex then c
    else
      var i := c.idIndex[r.toolUseId];
      c.(timeline := c.timeline[i := c.timeline[i].(result := r.content, isError := r.isError, cached := cached)])
  }

  function SnapshotOf(c: Captured, prompt: string, turn: nat, finish: FinishReason, termCode: string): Snapshot {
    Snapshot(prompt, c.answer, c.timeline, turn, finish, termCode)
  }

  class SnapshotBuilder {
    const prompt: string
    var answer: string
    var timeline: seq<ToolEvent>
    var idIndex: map<string, nat>

    ghost function Abs(): Captured
      reads this
    {
      Captured(answer, timeline, idIndex)
    }

    constructor (prompt: string)
      ensures this.prompt == prompt && Abs() == Captured("", [], map[])
    {
      this.prompt, answer, timeline, idIndex := prompt, "", [], map[];
    }

    method AddText(text: string)
      modifies this
      ensures Abs() == old(Abs()).(answer := old(answer) + text)
    {
      answer := answer + text;
    }

    method AddToolCall(use: ToolUse)
      modifies this
      ensures Abs() == AddCall(old(Abs()), use)
    {
      timeline := timeline + [ToolEvent(use.name, use.input, "", false, false)];
      idIndex := idIndex[use.id := |timeline| - 1];
    }

    method AddToolResult(r: ToolResult, cached: bool)
      requires Indexed(Abs())
      modifies this
      ensures Abs() == AddResult(old(Abs()), r, cached)
    {
      if r.toolUseId in idIndex {
        var idx := idIndex[r.toolUseId];
        timeline := timeline[idx := timeline[idx].(result := r.content)];
        timeline := timeline[idx := timeline[idx].(isError := r.isError)];
        timeline := timeline[idx := timeline[idx].(cached := cached)];
      }
    }

    method Seal(turn: nat, finish: FinishReason, termCode: string) returns (s: Snapshot)
      ensures s == SnapshotOf(Abs(), prompt, turn, finish, termCode)
    {
      s := Snapshot(prompt, answer, timeline, turn, finish, termCode);
    }
  }

  // ---------- the producer ----------

  /** What the emit closure carries from event to event. */
  datatype Producer = Producer(seg: string, cap: Captured)

  function Boundary(e: Event): bool { e.CallEvent? || e.ResultEvent? || e.Finish? }

  function SealSegment(p: Producer, truncated: bool): seq<Control> {
    if p.seg == "" then [] else [Sealed(p.seg, truncated)]
  }

  function After(p: Producer, e: Event): (q: Producer)
    requires Indexed(p.cap)
    ensures Indexed(q.cap)
  {
    match e
    case Text(_, text, thinking) =>
      if thinking then p else Producer(p.seg + text, p.cap.(answer := p.cap.answer + text))
    case CallEvent(_, use) => Producer("", AddCall(p.cap, use))
    case ResultEvent(_, result, cached) => Producer("", AddResult(p.cap, result, cached))
    case Finish(_, _, _, _) => Producer("", p.cap)
    case TurnStart(_) => p
  }

  function Controls(strip: bool, prompt: string, p: Producer, e: Event): seq<Control>
    requires Indexed(p.cap)
  {
    match e
    case Text(_, text, thinking) =>
      if thinking then [Thinking(if strip then "" else text)]
      else if text == "" then [] else [PreviewTick]
    case CallEvent(_, use) => SealSegment(p, false) + [Use(use)]
    case ResultEvent(_, result, cached) => SealSegment(p, false) + [Reply(result, cached)]
    case Finish(turn, finish, termCode, err) =>
      SealSegment(p, finish == FinishLength) + [Finishing(finish, termCode, err, SnapshotOf(p.cap, prompt, turn, finish, termCode))]
    case TurnStart(_) => []
  }

  /** The closure makeEmit returns; `sent` is everything put on the control channel. */
  class Emitter {
    const stripThink: bool
    const sb: SnapshotBuilder
    var segBuf: string
    var sent: seq<Control>

    ghost function Abs(): Producer
      reads this, sb
    {
      Producer(segBuf, sb.Abs())
    }

    constructor (stripThink: bool, sb: SnapshotBuilder)
      ensures this.stripThink == stripThink && this.sb == sb && segBuf == "" && sent == []
    {
      this.stripThink, this.sb, segBuf, sent := stripThink, sb, "", [];
    }

    method Seal(truncated: bool)
      modifies this
      ensures sent == old(sent) + SealSegment(old(Abs()), truncated) && segBuf == ""
    {
      if |segBuf| == 0 {
        return;
      }
      sent := sent + [Sealed(segBuf, truncated)];
      segBuf := "";
    }

    method Emit(e: Event)
      requires Indexed(Abs().cap)
      modifies this, sb
      ensures Abs() == After(old(Abs()), e)
      ensures sent == old(sent) + Controls(stripThink, sb.prompt, old(Abs()), e)
    {
      match e
      case Text(_, text, thinking) =>
        if thinking {
          sent := sent + [Thinking(if stripThink then "" else text)];
          return;
        }
        if text == "" {
          return;
        }
        segBuf := segBuf + text;
        sb.AddText(text);
        sent := sent + [PreviewTick];
      case CallEvent(_, use) =>
        Seal(false);
        sb.AddToolCall(use);
        sent := sent + [Use(use)];
      case ResultEvent(_, result, cached) =>
        Seal(false);
        sb.AddToolResult(result, cached);
        sent := sent + [Reply(result, cached)];
      case Finish(turn, finish, termCode, err) =>
        Seal(finish == FinishLength);
        var snapshot := sb.Seal(turn, finish, termCode);
        sent := sent + [Finishing(finish, termCode, err, snapshot)];
      case TurnStart(_) =>
    }
  }

  function ProducerAfter(p: Producer, events: seq<Event>): (q: Producer)
    requires Indexed(p.cap)
    ensures Indexed(q.cap)
  {
    if events == [] then p else After(ProducerAfter(p, events[..|events| - 1]), events[|events| - 1])
  }

  /** Everything the producer sends for a sequence of events. */
  function AllControls(strip: bool, prompt: string, p: Producer, events: seq<Event>): seq<Control>
    requires Indexed(p.cap)
  {
    if events == [] then []
    else
      var front := events[..|events| - 1];
      AllControls(strip, prompt, p, front) + Controls(strip, prompt, ProducerAfter(p, front), events[|events| - 1])
  }

  // ---------- the consumer ----------

  datatype Model = Model(
    scrollback: seq<Node>,
    previewNodes: seq<Node>,
    toolUseNames: map<string, string>,
    sawContent: bool,
    sawThinking: bool,
    thinkingBuf: string,
    sealedTruncated: bool,
    finishHandled: bool,
    lastSnapshot: Option<Snapshot>)

  /** The part of submit() that starts a run. */
  function Submit(m: Model, userText: string): Model {
    m.(scrollback := m.scrollback + [MessageNode(userText, SpeakerUser, false, false)], previewNodes := [],
       toolUseNames := map[], sawContent := false, sawThinking := false, thinkingBuf := "",
       sealedTruncated := false, finishHandled := false)
  }

  predicate IsCancelled(finish: FinishReason, err: Option<Error>) {
    finish == FinishCancelled || (finish == FinishError && err.Some? && err.value.cause == ContextCanceled)
  }

  const CANCELLED_MARKER := "[已取消]"

  function TermMarker(termCode: string): string {
    if termCode == "DIAGNOSE.MAX_TURNS" then "[DIAGNOSE.MAX_TURNS: 诊断轮数达上限]"
    else if termCode == "DIAGNOSE.TOTAL_TIMEOUT" then "[DIAGNOSE.TOTAL_TIMEOUT: 诊断总时长超限]"
    else if termCode == "DIAGNOSE.TOOL_UNKNOWN" then "[DIAGNOSE.TOOL_UNKNOWN: 模型请求未注册的工具]"
    else if termCode == "DIAGNOSE.UNEXPECTED_PAUSE" then "[DIAGNOSE.UNEXPECTED_PAUSE: 非预期 pause_turn]"
    else ""
  }

  const THINKING_ONLY_MARKER := "[模型仅返回 thinking;如需查看请设置 strip_think: false]"

  /** The nodes appendFinishNode adds. */
  function FinishNodes(finish: FinishReason, termCode: string, err: Option<Error>,
                       sawThinking: bool, thinkingText: string, sawContent: bool, inlineTruncated: bool): seq<Node> {
    if TermMarker(termCode) != "" then [Marker(TermMarker(termCode))]
    else
      var base := if thinkingText != "" then [ThinkingNode(thinkingText)] else [];
      if sawThinking && !sawContent && finish == FinishStop then
        if thinkingText != "" then base else base + [Marker(THINKING_ONLY_MARKER)]
      else if IsCancelled(finish, err) then base + [Marker(CANCELLED_MARKER)]
      else if finish == FinishError && err.Some? then base + [Marker("[错误: " + err.value.text + "]")]
      else if finish == FinishRefusal then base + [Marker("[LLM.PROVIDER_REFUSAL: 模型拒绝生成]")]
      else if !sawContent && finish != FinishStop then base + [Marker("[LLM.STREAM_EMPTY: 无可见输出]")]
      else if finish == FinishLength && !inlineTruncated then base + [Marker("[截断: 达到 max_tokens]")]
      else base
  }

  /** The latest tool-use node of an id takes a new state; all else stays. */
  function Transition(sb: seq<Node>, id: string, state: ToolState): seq<Node> {
    if sb == [] then []
    else
      var front, last := sb[..|sb| - 1], sb[|sb| - 1];
      if last.ToolUseNode? && last.id == id then front + [last.(state := state)]
      else Transition(front, id, state) + [last]
  }

  method TransitionToolUseState(sb: seq<Node>, id: string, state: ToolState) returns (out: seq<Node>)
    ensures out == Transition(sb, id, state)
  {
    assert sb[..|sb|] == sb;
    for i := |sb| downto 0
      invariant Transition(sb, id, state) == Transition(sb[..i], id, state) + sb[i..]
    {
      var n := sb[i];
      assert sb[..i + 1][..i] == sb[..i];
      if n.ToolUseNode? && n.id == id {
        var out := sb[i := n.(state := state)];
        assert out == sb[..i] + [n.(state := state)] + sb[i + 1..];
        return out;
      }
      assert [n] + sb[i + 1..] == sb[i..];
      Associate(Transition(sb[..i], id, state), [n], sb[i + 1..]);
    }
    return sb;
  }

  function FilterThinkingOnlyEmpty(nodes: seq<Node>, sawThinking: bool, sawContent: bool): seq<Node> {
    if !sawThinking || sawContent || nodes == [] then nodes
    else
      (if nodes[0].MessageNode? && nodes[0].empty then [] else [nodes[0]])
      + FilterThinkingOnlyEmpty(nodes[1..], sawThinking, sawContent)
  }

  /** handleControl; `drained` is what the preview stream yields if it is drained. */
  function HandleControl(m: Model, c: Control, drained: seq<Node>): Model {
    match c
    case PreviewTick =>
      m.(previewNodes := m.previewNodes + FilterThinkingOnlyEmpty(drained, m.sawThinking, m.sawContent))
    case Sealed(text, truncated) =>
      m.(sawContent := true, sealedTruncated := truncated, previewNodes := [],
         scrollback := m.scrollback + [MessageNode(text, SpeakerAssistant, truncated, false)])
    case Thinking(token) => m.(sawThinking := true, thinkingBuf := m.thinkingBuf + token)
    case Use(use) =>
      m.(toolUseNames := m.toolUseNames[use.id := use.name],
         scrollback := m.scrollback + [ToolUseNode(use.id, use.name, use.input, Running)])
    case Reply(result, cached) =>
      var name := if result.toolUseId in m.toolUseNames then m.toolUseNames[result.toolUseId] else "";
      if name == "" then m
      else
        m.(scrollback := Transition(m.scrollback, result.toolUseId, if result.isError then Errored else Resolved)
             + [ToolResultNode(result.toolUseId, name, result.content, result.isError, cached)])
    case Finishing(finish, termCode, err, snapshot) =>
      if finish == FinishUnset then m
      else
        m.(finishHandled := true, previewNodes := [],
           scrollback := m.scrollback + FinishNodes(finish, termCode, err, m.sawThinking, m.thinkingBuf, m.sawContent, m.sealedTruncated),
           lastSnapshot := if IsCancelled(finish, err) then m.lastSnapshot else Some(snapshot))
  }

  // ---------- the control channel between them ----------

  const CTRL_BUF_SIZE := 64

  datatype Pipe = Pipe(toSend: seq<Control>, queue: seq<Control>, model: Model)

  datatype PipeStep = Send | Receive(drained: seq<Node>)

  predicate PipeEnabled(p: Pipe, s: PipeStep) {
    if s.Send? then p.toSend != [] && |p.queue| < CTRL_BUF_SIZE else p.queue != []
  }

  function PipeNext(p: Pipe, s: PipeStep): Pipe
    requires PipeEnabled(p, s)
  {
    match s
    case Send => p.(toSend := p.toSend[1..], queue := p.queue + [p.toSend[0]])
    case Receive(drained) => p.(queue := p.queue[1..], model := HandleControl(p.model, p.queue[0], drained))
  }

  predicate PipeCanRun(p: Pipe, steps: seq<PipeStep>)
    decreases |steps|
  {
    steps == [] || (PipeEnabled(p, steps[0]) && PipeCanRun(PipeNext(p, steps[0]), steps[1..]))
  }

  function PipeRun(p: Pipe, steps: seq<PipeStep>): Pipe
    requires PipeCanRun(p, steps)
    decreases |steps|
  {
    if steps == [] then p else PipeRun(PipeNext(p, steps[0]), steps[1..])
  }
}
