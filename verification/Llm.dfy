/** Provider-agnostic conversation values (internal/domain/llm) and the events
    the diagnose loop hands to its consumer (internal/app/diagnose/event.go). */
module Llm {
  import opened Prelude

  datatype FinishReason =
    | FinishUnset
    | FinishStop
    | FinishLength
    | FinishToolUse
    | FinishStopSequence
    | FinishPause
    | FinishRefusal
    | FinishCancelled
    | FinishError

  /** What `errors.Is` can find inside an error value. */
  datatype Cause = ContextCanceled | ContextDeadline | Registered(code: string) | Foreign

  datatype Error = Error(cause: Cause, text: string)

  const ERR_TOTAL_TIMEOUT := Error(Registered("DIAGNOSE.TOTAL_TIMEOUT"), "[DIAGNOSE.TOTAL_TIMEOUT] 诊断总时长超限 (默认 10min)")
  const ERR_MAX_TURNS := Error(Registered("DIAGNOSE.MAX_TURNS"), "[DIAGNOSE.MAX_TURNS] 诊断轮数达上限未收敛")
  const ERR_TOOL_UNKNOWN := Error(Registered("DIAGNOSE.TOOL_UNKNOWN"), "[DIAGNOSE.TOOL_UNKNOWN] 模型请求未注册的工具")
  const ERR_TOOL_TIMEOUT := Error(Registered("DIAGNOSE.TOOL_TIMEOUT"), "[DIAGNOSE.TOOL_TIMEOUT] 单轮工具执行超时 (默认 30s)")
  const ERR_UNEXPECTED_PAUSE := Error(Registered("DIAGNOSE.UNEXPECTED_PAUSE"), "[DIAGNOSE.UNEXPECTED_PAUSE] 收到非预期 pause_turn (spec-1.21 未启用 server tool)")
  const ERR_TIMEOUT := Error(Registered("LLM.TIMEOUT"), "[LLM.TIMEOUT] LLM 请求超时")
  const ERR_STREAM_EMPTY := Error(Registered("LLM.STREAM_EMPTY"), "[LLM.STREAM_EMPTY] LLM stream 无可见输出 (thinking-only 且非正常结束)")
  const ERR_DECODE_FAILED := Error(Registered("LLM.DECODE_FAILED"), "[LLM.DECODE_FAILED] LLM 响应解码失败 (SSE event / tool_use input JSON)")
  const ERR_PROVIDER_REFUSAL := Error(Registered("LLM.PROVIDER_REFUSAL"), "[LLM.PROVIDER_REFUSAL] LLM provider 拒绝生成 (refusal)")

  /** A decoded JSON object, under any name that tells two objects apart. */
  type Input = string

  datatype ToolUse = ToolUse(id: string, name: string, input: Input)

  datatype ToolResult = ToolResult(toolUseId: string, content: string, isError: bool)

  datatype ToolSchema = ToolSchema(name: string, description: string, inputSchema: string)

  datatype Block = TextBlock(text: string) | ToolUseBlock(use: ToolUse) | ToolResultBlock(result: ToolResult)

  datatype Role = RoleUser | RoleAssistant

  datatype Message = Message(role: Role, content: seq<Block>)

  /** The part of llm.Request that changes from turn to turn. */
  datatype Request = Request(messages: seq<Message>, tools: seq<ToolSchema>)

  datatype Chunk = Chunk(token: string, thinking: bool, finish: FinishReason, toolUses: seq<ToolUse>, err: Option<Error>)

  datatype Event =
    | TurnStart(turn: nat)
    | Text(turn: nat, text: string, thinking: bool)
    | CallEvent(turn: nat, use: ToolUse)
    | ResultEvent(turn: nat, result: ToolResult, cached: bool)
    | Finish(turn: nat, finish: FinishReason, termCode: string, err: Option<Error>)
}
