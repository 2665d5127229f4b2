/**
 Run events, their payloads and the archive record.

 A payload is the decoded form of the raw JSON a runtime attaches. `Absent` is an
 empty message and `Malformed` bytes that are not JSON; every other constructor is
 one of the objects the runtimes send. Decoding an object as another struct keeps
 the fields they share and zeroes the rest.
 */
module Events {
  import opened Common
  import opened Errors

  datatype EventType =
    | RunStarted | RunCompleted | RunFailed | RunCancelled
    | MessageDelta | ReasoningDelta | MessageResult
    | ToolCallStarted | ToolCallCompleted | ToolCallFailed
    | TodoSnapshot | TodoUpdated
    | ArtifactDeclared
    | ApprovalRequested | ApprovalResolved | QuestionAsked | QuestionAnswered
    | ExecutionStarted | ExecutionCompleted | ExecutionFailed | ExecutionCancelled
    | OtherType(name: string)

  datatype DeltaPayload = DeltaPayload(messageID: string, role: string, content: string)

  datatype ToolCall = ToolCall(callID: string, name: string, arguments: string)

  // The raw result of a tool call: missing, the JSON null, or some other JSON value.
  datatype RawResult = NoResult | NullResult | JsonResult(text: string)

  datatype ToolResult = ToolResult(callID: string, name: string, result: RawResult, error: string, isError: bool)

  datatype TodoItem = TodoItem(id: string, title: string, status: string, priority: string)

  datatype Artifact = Artifact(artifactID: string, title: string, storageURI: string, createdAt: int)

  datatype ApprovalRequest = ApprovalRequest(requestID: string, toolName: string, description: string)

  datatype ApprovalDecision = ApprovalDecision(requestID: string, action: string, reason: string)

  datatype QuestionRequest = QuestionRequest(requestID: string, messageID: string, questions: seq<string>)

  datatype QuestionAnswer = QuestionAnswer(requestID: string, answers: seq<seq<string>>)

  datatype Payload =
    | Absent
    | Malformed(bytes: string)
    | DeltaJson(delta: DeltaPayload)
    | ToolCallJson(call: ToolCall)
    | ToolResultJson(toolResult: ToolResult)
    | TodosJson(todos: seq<TodoItem>)
    | ArtifactJson(artifact: Artifact)
    | ApprovalRequestJson(approvalRequest: ApprovalRequest)
    | ApprovalDecisionJson(approvalDecision: ApprovalDecision)
    | QuestionRequestJson(questionRequest: QuestionRequest)
    | QuestionAnswerJson(questionAnswer: QuestionAnswer)
    | TerminalJson(terminal: TerminalPayload)
    | OtherJson(text: string)

  // What a terminal event carries: the outcome and the archive of the whole run.
  datatype TerminalPayload = TerminalPayload(
    status: RunStatus,
    message: string,
    error: Option<Error>,
    records: seq<Record>)

  datatype RunStatus = StatusCompleted | StatusFailed | StatusCancelled

  datatype Event = Event(runID: string, seqNo: int, kind: EventType, createdAt: int, payload: Payload, content: string)

  datatype Record = Record(seqNo: int, lastSeq: int, kind: EventType, timestamp: int, payload: Payload)

  // What a cancelled run says.
  const CANCELLED_TEXT := "已取消"

  // Objects decode into any struct; arrays, empty and broken input do not.
  predicate IsObject(p: Payload) {
    !p.Absent? && !p.Malformed? && !p.TodosJson?
  }

  function DecodeDelta(p: Payload): (r: Option<DeltaPayload>) {
    match p
    case DeltaJson(delta) => Some(delta)
    case QuestionRequestJson(q) => Some(DeltaPayload(q.messageID, "", ""))
    case _ => if IsObject(p) then Some(DeltaPayload("", "", "")) else None
  }

  predicate IsTerminal(kind: EventType) {
    kind.RunCompleted? || kind.RunFailed? || kind.RunCancelled?
  }

  predicate IsDelta(kind: EventType) {
    kind.MessageDelta? || kind.ReasoningDelta?
  }
}
