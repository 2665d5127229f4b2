/**
 What a client is shown of a run: live, event by event as the worker publishes
 them, and later as history, from the archive stored with the finished message.
 */
module SessionViews {
  import opened Common
  import opened Events
  import opened Journal

  datatype ViewKind =
    | Started | Completed | Failed | Cancelled
    | Message | Reasoning
    | ToolStarted | ToolFinished
    | Todos | TodosChanged
    | Declared
    | ApprovalAsked | ApprovalGiven | Asked | Answered

  datatype ResultValue = Nothing | Value(json: string) | ErrorText(text: string)

  datatype ViewPayload =
    | NoPayload
    | Delta(messageID: string, role: string, content: string)
    | Tool(call: ToolCall)
    | ToolOutcome(callID: string, name: string, value: ResultValue, status: string)
    | TodoList(items: seq<TodoItem>)
    | ArtifactView(artifact: Artifact)
    | ApprovalRequestView(approvalRequest: ApprovalRequest)
    | ApprovalDecisionView(approvalDecision: ApprovalDecision)
    | QuestionView(question: QuestionRequest)
    | AnswerView(answer: QuestionAnswer)
    | TerminalView(terminal: TerminalPayload)
    | StatusView(status: string, message: string)

  datatype View = View(kind: ViewKind, seqNo: int, payload: ViewPayload)

  // -------------------------------------------------------------- decoding

  function DecodeToolCall(p: Payload): Option<ToolCall> {
    if p.ToolCallJson? then Some(p.call) else if IsObject(p) then Some(ToolCall("", "", "")) else None
  }

  function DecodeToolResult(p: Payload): Option<ToolResult> {
    if p.ToolResultJson? then Some(p.toolResult)
    else if IsObject(p) then Some(ToolResult("", "", NoResult, "", false)) else None
  }

  function DecodeTodos(p: Payload): Option<seq<TodoItem>> {
    if p.TodosJson? then Some(p.todos) else None
  }

  function DecodeArtifact(p: Payload): Option<Artifact> {
    if p.ArtifactJson? then Some(p.artifact) else if IsObject(p) then Some(Artifact("", "", "", 0)) else None
  }

  function DecodeApprovalRequest(p: Payload): Option<ApprovalRequest> {
    if p.ApprovalRequestJson? then Some(p.approvalRequest)
    else if IsObject(p) then Some(ApprovalRequest("", "", "")) else None
  }

  function DecodeApprovalDecision(p: Payload): Option<ApprovalDecision> {
    if p.ApprovalDecisionJson? then Some(p.approvalDecision)
    else if IsObject(p) then Some(ApprovalDecision("", "", "")) else None
  }

  function DecodeQuestion(p: Payload): Option<QuestionRequest> {
    if p.QuestionRequestJson? then Some(p.questionRequest)
    else if IsObject(p) then Some(QuestionRequest("", "", [])) else None
  }

  function DecodeAnswer(p: Payload): Option<QuestionAnswer> {
    if p.QuestionAnswerJson? then Some(p.questionAnswer)
    else if IsObject(p) then Some(QuestionAnswer("", [])) else None
  }

  function DecodeTerminal(p: Payload): Option<TerminalPayload> {
    if p.TerminalJson? then Some(p.terminal)
    else if IsObject(p) then Some(TerminalPayload(StatusFailed, "", None, [])) else None
  }

  // ------------------------------------------------------------------ live

  // The message a worker puts on the wire; fields it does not fill are None.
  datatype Wire = Wire(
    kind: EventType,
    seqNo: int,
    publishedAt: int,
    messageID: string,
    role: string,
    content: string,
    toolCall: Option<ToolCall>,
    toolResult: Option<ToolResult>,
    todos: seq<TodoItem>,
    artifact: Option<Artifact>,
    approvalRequest: Option<ApprovalRequest>,
    approvalDecision: Option<ApprovalDecision>,
    question: Option<QuestionRequest>,
    answer: Option<QuestionAnswer>,
    terminal: Option<TerminalPayload>)

  // Event types the worker refuses to publish.
  predicate Publishable(kind: EventType) {
    !kind.OtherType? && !kind.ExecutionStarted? && !kind.ExecutionCompleted? &&
    !kind.ExecutionFailed? && !kind.ExecutionCancelled?
  }

  function Bare(e: Event, publishedAt: int): Wire {
    Wire(e.kind, e.seqNo, publishedAt, "", "assistant", e.content,
         None, None, [], None, None, None, None, None, None)
  }

  function ToWire(e: Event, publishedAt: int): Option<Wire> {
    if !Publishable(e.kind) then None
    else
      var w := Bare(e, publishedAt);
      Some(match e.kind
        case MessageDelta => WithDelta(w, e.payload)
        case ReasoningDelta => WithDelta(w, e.payload)
        case ToolCallStarted => w.(toolCall := DecodeToolCall(e.payload))
        case ToolCallCompleted => w.(toolResult := DecodeToolResult(e.payload))
        case ToolCallFailed => w.(toolResult := DecodeToolResult(e.payload))
        case TodoSnapshot => WithTodos(w, e.payload)
        case TodoUpdated => WithTodos(w, e.payload)
        case ArtifactDeclared => w.(artifact := DecodeArtifact(e.payload))
        case ApprovalRequested => w.(approvalRequest := DecodeApprovalRequest(e.payload))
        case ApprovalResolved => w.(approvalDecision := DecodeApprovalDecision(e.payload))
        case QuestionAsked => w.(question := DecodeQuestion(e.payload))
        case QuestionAnswered => w.(answer := DecodeAnswer(e.payload))
        case _ => if IsTerminal(e.kind) then w.(terminal := DecodeTerminal(e.payload)) else w)
  }

  function WithDelta(w: Wire, p: Payload): Wire {
    match DecodeDelta(p)
    case Some(d) =>
      w.(messageID := d.messageID, role := if d.role == "" then "assistant" else d.role, content := d.content)
    case None => w
  }

  function WithTodos(w: Wire, p: Payload): Wire {
    match DecodeTodos(p)
    case Some(todos) => w.(todos := todos)
    case None => w
  }

  function Outcome(r: ToolResult): ViewPayload {
    var value := if r.result.JsonResult? then Value(r.result.text) else Nothing;
    ToolOutcome(r.callID, r.name,
      if r.isError && value == Nothing then ErrorText(r.error) else value,
      if r.isError then "error" else "success")
  }

  function Status(w: Wire, status: string, message: string): ViewPayload {
    if w.terminal.Some? then TerminalView(w.terminal.value) else StatusView(status, message)
  }

  /** ProjectRunEvent: the live projection of one wire message. */
  function ProjectRunEvent(w: Wire): Option<View> {
    match w.kind
    case MessageDelta => Some(View(Message, w.seqNo, Delta(w.messageID, w.role, w.content)))
    case ReasoningDelta => Some(View(Reasoning, w.seqNo, Delta(w.messageID, w.role, w.content)))
    case ToolCallStarted =>
      if w.toolCall == None then None else Some(View(ToolStarted, w.seqNo, Tool(w.toolCall.value)))
    case ToolCallCompleted =>
      if w.toolResult == None then None else Some(View(ToolFinished, w.seqNo, Outcome(w.toolResult.value)))
    case ToolCallFailed =>
      if w.toolResult == None then None else Some(View(ToolFinished, w.seqNo, Outcome(w.toolResult.value)))
    case TodoSnapshot => Some(View(Todos, w.seqNo, TodoList(w.todos)))
    case TodoUpdated => Some(View(TodosChanged, w.seqNo, TodoList(w.todos)))
    case ArtifactDeclared =>
      if w.artifact == None then None
      else Some(View(Declared, w.seqNo, ArtifactView(w.artifact.value.(createdAt := w.publishedAt))))
    case RunStarted => Some(View(Started, w.seqNo, NoPayload))
    case RunCompleted =>
      Some(View(Completed, w.seqNo, if w.terminal.Some? then TerminalView(w.terminal.value) else NoPayload))
    case ApprovalRequested =>
      Some(View(ApprovalAsked, w.seqNo,
        if w.approvalRequest.Some? then ApprovalRequestView(w.approvalRequest.value) else NoPayload))
    case ApprovalResolved =>
      Some(View(ApprovalGiven, w.seqNo,
        if w.approvalDecision.Some? then ApprovalDecisionView(w.approvalDecision.value) else NoPayload))
    case QuestionAsked =>
      Some(View(Asked, w.seqNo, if w.question.Some? then QuestionView(w.question.value) else NoPayload))
    case QuestionAnswered =>
      Some(View(Answered, w.seqNo, if w.answer.Some? then AnswerView(w.answer.value) else NoPayload))
    case RunFailed => Some(View(Failed, w.seqNo, Status(w, "failed", w.content)))
    case RunCancelled => Some(View(Cancelled, w.seqNo, Status(w, "cancelled", CANCELLED_TEXT)))
    case _ => None
  }

  function LiveView(e: Event, publishedAt: int): Option<View> {
    match ToWire(e, publishedAt)
    case Some(w) => ProjectRunEvent(w)
    case None => None
  }

  function AsSeq<T>(o: Option<T>): seq<T> {
    match o
    case Some(x) => [x]
    case None => []
  }

  // What is shown, in order.
  function Flatten(shown: seq<Option<View>>): seq<View> {
    if shown == [] then [] else Flatten(shown[..|shown| - 1]) + AsSeq(shown[|shown| - 1])
  }

  function LiveViews(events: seq<Event>, clock: nat -> int): seq<Option<View>> {
    seq(|events|, i requires 0 <= i < |events| => LiveView(events[i], clock(i)))
  }

  /** The live view of a run; `clock` is when each event was published. */
  function Live(events: seq<Event>, clock: nat -> int): seq<View> {
    Flatten(LiveViews(events, clock))
  }

  // --------------------------------------------------------------- history

  predicate Hidden(kind: EventType) {
    kind.TodoSnapshot? || kind.TodoUpdated?
  }

  function DecodedTerminal(r: Record): ViewPayload {
    match DecodeTerminal(r.payload)
    case Some(t) => TerminalView(t)
    case None => NoPayload
  }

  function Shown<T>(r: Record, kind: ViewKind, decoded: Option<T>, show: T -> ViewPayload): Option<View> {
    match decoded
    case Some(x) => Some(View(kind, r.seqNo, show(x)))
    case None => None
  }

  /** ProjectRunEventRecord: the projection of one archived record. */
  function ProjectRunEventRecord(r: Record): Option<View> {
    match r.kind
    case RunStarted => Some(View(Started, r.seqNo, NoPayload))
    case RunCompleted => Some(View(Completed, r.seqNo, DecodedTerminal(r)))
    case RunFailed => Some(View(Failed, r.seqNo, DecodedTerminal(r)))
    case RunCancelled => Some(View(Cancelled, r.seqNo, DecodedTerminal(r)))
    case MessageDelta =>
      Shown(r, Message, DecodeDelta(r.payload), (d: DeltaPayload) => Delta(d.messageID, d.role, d.content))
    case ReasoningDelta =>
      Shown(r, Reasoning, DecodeDelta(r.payload), (d: DeltaPayload) => Delta(d.messageID, d.role, d.content))
    case ToolCallStarted => Shown(r, ToolStarted, DecodeToolCall(r.payload), c => Tool(c))
    case ToolCallCompleted => Shown(r, ToolFinished, DecodeToolResult(r.payload), x => Outcome(x))
    case ToolCallFailed => Shown(r, ToolFinished, DecodeToolResult(r.payload), x => Outcome(x))
    case TodoSnapshot => Shown(r, Todos, DecodeTodos(r.payload), t => TodoList(t))
    case TodoUpdated => Shown(r, TodosChanged, DecodeTodos(r.payload), t => TodoList(t))
    case ApprovalRequested => Shown(r, ApprovalAsked, DecodeApprovalRequest(r.payload), a => ApprovalRequestView(a))
    case ApprovalResolved => Shown(r, ApprovalGiven, DecodeApprovalDecision(r.payload), a => ApprovalDecisionView(a))
    case QuestionAsked => Shown(r, Asked, DecodeQuestion(r.payload), q => QuestionView(q))
    case QuestionAnswered => Shown(r, Answered, DecodeAnswer(r.payload), a => AnswerView(a))
    case ArtifactDeclared => Shown(r, Declared, DecodeArtifact(r.payload), a => ArtifactView(a))
    case _ => None
  }

  function HistoryView(r: Record): Option<View> {
    if Hidden(r.kind) then None else ProjectRunEventRecord(r)
  }

  function HistoryViews(records: seq<Record>): seq<Option<View>> {
    seq(|records|, i requires 0 <= i < |records| => HistoryView(records[i]))
  }

  function HistoryOf(records: seq<Record>): seq<View> {
    Flatten(HistoryViews(records))
  }

  /** The history view of a run. */
  function History(events: seq<Event>): seq<View> {
    HistoryOf(Archive(events))
  }

  // ------------------------------------------------------- text agreement

  predicate Speaks(v: View, key: Key) {
    && v.payload.Delta? && v.payload.messageID == key.messageID
    && ((v.kind.Message? && key.kind.MessageDelta?) || (v.kind.Reasoning? && key.kind.ReasoningDelta?))
  }

  // The texts shown for one message, in order.
  function Texts(views: seq<View>, key: Key): seq<string> {
    if views == [] then []
    else
      var n := |views| - 1;
      Texts(views[..n], key) + if Speaks(views[n], key) then [views[n].payload.content] else []
  }

  function Concat(texts: seq<string>): string {
    if texts == [] then "" else Concat(texts[..|texts| - 1]) + texts[|texts| - 1]
  }

  predicate ProperKey(key: Key) {
    IsDelta(key.kind) && key.messageID != ""
  }

  lemma {:induction false} TextsAppend(views: seq<View>, o: Option<View>, key: Key)
    ensures o.Some? && Speaks(o.value, key) ==>
      Texts(views + AsSeq(o), key) == Texts(views, key) + [o.value.payload.content]
    ensures !(o.Some? && Speaks(o.value, key)) ==> Texts(views + AsSeq(o), key) == Texts(views, key)
  {
    if o.Some? {
      assert (views + [o.value])[..|views|] == views;
    } else {
      assert views + [] == views;
    }
  }

  lemma {:induction false} ConcatAppend(texts: seq<string>, t: string)
    ensures Concat(texts + [t]) == Concat(texts) + t
  {
    assert (texts + [t])[..|texts|] == texts;
  }

  // o speaks for this key exactly when the event has it, and says what it says.
  ghost predicate SpeaksFor(o: Option<View>, e: Event, key: Key) {
    && ((o.Some? && Speaks(o.value, key)) <==> KeyOf(e) == Some(key))
    && (o.Some? && Speaks(o.value, key) ==> o.value.payload.content == DeltaOf(e).content)
  }

  lemma {:induction false} LiveSpeaks(e: Event, publishedAt: int, key: Key)
    requires ProperKey(key)
    ensures SpeaksFor(LiveView(e, publishedAt), e, key)
  {
  }

  lemma {:induction false} TextStep(events: seq<Event>, views: seq<View>, e: Event, o: Option<View>, key: Key)
    requires SpeaksFor(o, e, key) && Concat(Texts(views, key)) == Contents(Group(events, key))
    ensures Concat(Texts(views + AsSeq(o), key)) == Contents(Group(events + [e], key))
  {
    TextsAppend(views, o, key);
    GroupGrows(events, e, key);
    if KeyOf(e) == Some(key) {
      ConcatAppend(Texts(views, key), DeltaOf(e).content);
      ContentsGrow(Group(events, key), e);
    }
  }

  lemma {:induction false} FlattenMore(shown: seq<Option<View>>, o: Option<View>)
    ensures Flatten(shown + [o]) == Flatten(shown) + AsSeq(o)
  {
    assert (shown + [o])[..|shown|] == shown;
  }

  // Views that speak for the events they stand for.
  ghost predicate AllSpeakFor(shown: seq<Option<View>>, events: seq<Event>, key: Key) {
    |shown| == |events| && forall i :: 0 <= i < |events| ==> SpeaksFor(shown[i], events[i], key)
  }

  lemma {:induction false} TextMore(front: seq<Option<View>>, o: Option<View>, events: seq<Event>, e: Event, key: Key)
    requires Concat(Texts(Flatten(front), key)) == Contents(Group(events, key)) && SpeaksFor(o, e, key)
    ensures Concat(Texts(Flatten(front + [o]), key)) == Contents(Group(events + [e], key))
  {
    FlattenMore(front, o);
    TextStep(events, Flatten(front), e, o, key);
  }

  lemma {:induction false} FlattenText(shown: seq<Option<View>>, events: seq<Event>, key: Key)
    requires AllSpeakFor(shown, events, key)
    ensures Concat(Texts(Flatten(shown), key)) == Contents(Group(events, key))
    decreases |events|
  {
    if events != [] {
      var n := |events| - 1;
      var front, before := shown[..n], events[..n];
      assert shown == front + [shown[n]] && events == before + [events[n]];
      assert AllSpeakFor(front, before, key) && SpeaksFor(shown[n], events[n], key);
      FlattenText(front, before, key);
      TextMore(front, shown[n], before, events[n], key);
    }
  }

  lemma {:induction false} LiveText(events: seq<Event>, clock: nat -> int, key: Key)
    requires ProperKey(key)
    ensures Concat(Texts(Live(events, clock), key)) == Contents(Group(events, key))
  {
    var shown := LiveViews(events, clock);
    forall i | 0 <= i < |events| ensures SpeaksFor(shown[i], events[i], key) {
      LiveSpeaks(events[i], clock(i), key);
    }
    FlattenText(shown, events, key);
  }

  lemma {:induction false} OpenerText(events: seq<Event>, i: nat, key: Key)
    requires ProperKey(key) && i < |events| && Opens(events, i)
    ensures var v := HistoryView(RecordAt(events, i));
      if KeyOf(events[i]) == Some(key)
      then v.Some? && Speaks(v.value, key) && v.value.payload.content == Contents(Group(events, key))
      else !(v.Some? && Speaks(v.value, key))
  {
    RecordOpens(events, i);
    var r := RecordAt(events, i);
    if KeyOf(events[i]).Some? {
      var k := KeyOf(events[i]).value;
      FirstOfGroup(events, i, k);
      var g := Group(events, k);
      if |g| == 1 {
        assert g[..0] == [] && Contents(g) == Contents(g[..0]) + DeltaOf(g[0]).content;
        assert Contents(g) == DeltaOf(g[0]).content;
      }
    }
  }

  predicate SpeaksOf(o: Option<View>, key: Key) {
    o.Some? && Speaks(o.value, key)
  }

  lemma {:induction false} NoText(shown: seq<Option<View>>, key: Key)
    requires forall i :: 0 <= i < |shown| ==> !SpeaksOf(shown[i], key)
    ensures Texts(Flatten(shown), key) == []
    decreases |shown|
  {
    if shown != [] {
      var n := |shown| - 1;
      NoText(shown[..n], key);
      TextsAppend(Flatten(shown[..n]), shown[n], key);
    }
  }

  // When one of the views speaks and no other, its text is all there is.
  lemma {:induction false} OneText(shown: seq<Option<View>>, key: Key, k: nat)
    requires k < |shown| && SpeaksOf(shown[k], key)
    requires forall i :: 0 <= i < |shown| && i != k ==> !SpeaksOf(shown[i], key)
    ensures Texts(Flatten(shown), key) == [shown[k].value.payload.content]
    decreases |shown|
  {
    var n := |shown| - 1;
    if n == k {
      NoText(shown[..n], key);
    } else {
      OneText(shown[..n], key, k);
    }
    TextsAppend(Flatten(shown[..n]), shown[n], key);
  }

  lemma {:induction false} SpokenHasOpener(events: seq<Event>, key: Key) returns (k: nat)
    requires Group(events, key) != []
    ensures k < |Openers(events)| && KeyOf(events[Openers(events)[k]]) == Some(key)
  {
    GroupWithin(events, key);
    var e := Group(events, key)[0];
    assert e in events;
    var i :| 0 <= i < |events| && events[i] == e;
    var o := KeyHasOpener(events, i);
    k :| 0 <= k < |Openers(events)| && Openers(events)[k] == o;
  }

  /** For every message, history shows one text exactly when the run spoke, and it
      is the concatenation of everything shown live. */
  lemma {:induction false} TextsAgree(events: seq<Event>, clock: nat -> int, key: Key)
    requires SeqIncreasing(events) && ProperKey(key)
    ensures Texts(History(events), key) ==
      if Group(events, key) == [] then [] else [Concat(Texts(Live(events, clock), key))]
  {
    ArchiveNeedsNoSort(events);
    LiveText(events, clock, key);
    WholeHistoryText(events, key);
  }

  // What the k-th record says of the message, if anything.
  lemma {:induction false} RecordSpeaks(events: seq<Event>, key: Key, k: nat)
    requires ProperKey(key) && k < |Openers(events)|
    ensures var o := HistoryViews(GroupBy(events))[k];
      (SpeaksOf(o, key) <==> KeyOf(events[Openers(events)[k]]) == Some(key))
      && (SpeaksOf(o, key) ==> o.value.payload.content == Contents(Group(events, key)))
  {
    OpenerText(events, Openers(events)[k], key);
  }

  lemma {:induction false} SilentHistory(events: seq<Event>, key: Key)
    requires ProperKey(key) && Group(events, key) == []
    ensures Texts(HistoryOf(GroupBy(events)), key) == []
  {
    var shown := HistoryViews(GroupBy(events));
    forall i | 0 <= i < |shown| ensures !SpeaksOf(shown[i], key) {
      RecordSpeaks(events, key, i);
      if KeyOf(events[Openers(events)[i]]) == Some(key) {
        OpenerInGroup(events, Openers(events)[i], key);
      }
    }
    NoText(shown, key);
  }

  lemma {:induction false} SpeakingHistory(events: seq<Event>, key: Key)
    requires ProperKey(key) && Group(events, key) != []
    ensures Texts(HistoryOf(GroupBy(events)), key) == [Contents(Group(events, key))]
  {
    var shown := HistoryViews(GroupBy(events));
    var k := SpokenHasOpener(events, key);
    RecordSpeaks(events, key, k);
    forall i | 0 <= i < |shown| && i != k ensures !SpeaksOf(shown[i], key) {
      RecordSpeaks(events, key, i);
      OtherOpener(events, i, k);
    }
    OneText(shown, key, k);
  }

  lemma {:induction false} WholeHistoryText(events: seq<Event>, key: Key)
    requires ProperKey(key)
    ensures Texts(HistoryOf(GroupBy(events)), key) ==
      if Group(events, key) == [] then [] else [Contents(Group(events, key))]
  {
    if Group(events, key) == [] {
      SilentHistory(events, key);
    } else {
      SpeakingHistory(events, key);
    }
  }

  // -------------------------------------------------- one-by-one agreement

  // Everything but the deltas of a named message and the todo lists, which history hides.
  predicate Single(v: View) {
    !v.kind.Todos? && !v.kind.TodosChanged? && (v.payload.Delta? ==> v.payload.messageID == "")
  }

  // What both views promise to agree on: an unnamed role is the assistant's, and
  // an artifact's time is the publication's live and the declaration's in history.
  function Norm(v: View): View {
    match v.payload
    case Delta(id, role, content) => v.(payload := Delta(id, if role == "" then "assistant" else role, content))
    case ArtifactView(a) => v.(payload := ArtifactView(a.(createdAt := 0)))
    case _ => v
  }

  function Singles(views: seq<View>): seq<View> {
    if views == [] then []
    else
      var n := |views| - 1;
      Singles(views[..n]) + if Single(views[n]) then [Norm(views[n])] else []
  }

  function SingleOf(o: Option<View>): seq<View> {
    if o.Some? && Single(o.value) then [Norm(o.value)] else []
  }

  // Live shows these even when their payload cannot be read; history drops them.
  predicate LostFromHistory(e: Event) {
    match e.kind
    case MessageDelta => DecodeDelta(e.payload) == None
    case ReasoningDelta => DecodeDelta(e.payload) == None
    case ApprovalRequested => DecodeApprovalRequest(e.payload) == None
    case ApprovalResolved => DecodeApprovalDecision(e.payload) == None
    case QuestionAsked => DecodeQuestion(e.payload) == None
    case QuestionAnswered => DecodeAnswer(e.payload) == None
    case _ => false
  }

  lemma {:induction false} SinglesAppend(views: seq<View>, o: Option<View>)
    ensures Singles(views + AsSeq(o)) == Singles(views) + SingleOf(o)
  {
    if o.Some? {
      assert (views + [o.value])[..|views|] == views;
    } else {
      assert views + [] == views;
    }
  }

  // One event on its own, both ways.
  lemma {:induction false} SameSingle(e: Event, publishedAt: int)
    requires !IsTerminal(e.kind)
    ensures KeyOf(e).Some? ==> SingleOf(LiveView(e, publishedAt)) == []
    ensures !Kept(e) ==> SingleOf(LiveView(e, publishedAt)) == []
    ensures KeyOf(e) == None && Kept(e) && !LostFromHistory(e) ==>
      SingleOf(LiveView(e, publishedAt)) == SingleOf(HistoryView(Plain(e)))
    ensures LostFromHistory(e) ==>
      KeyOf(e) == None && Kept(e) &&
      |SingleOf(LiveView(e, publishedAt))| == 1 && SingleOf(HistoryView(Plain(e))) == []
  {
  }

  lemma {:induction false} KeyedIsNotSingle(events: seq<Event>, i: nat)
    requires i < |events| && Opens(events, i) && KeyOf(events[i]).Some?
    ensures SingleOf(HistoryView(RecordAt(events, i))) == []
  {
    var key := KeyOf(events[i]).value;
    OpenerText(events, i, key);
  }

  // One more record.
  lemma {:induction false} SinglesPrefix(records: seq<Record>, j: nat)
    requires j < |records|
    ensures Singles(HistoryOf(records[..j + 1])) == Singles(HistoryOf(records[..j])) + SingleOf(HistoryView(records[j]))
  {
    FlattenMore(HistoryViews(records[..j]), HistoryView(records[j]));
    assert HistoryViews(records[..j + 1]) == HistoryViews(records[..j]) + [HistoryView(records[j])];
    SinglesAppend(HistoryOf(records[..j]), HistoryView(records[j]));
  }

  // A later event leaves what an earlier record shows on its own.
  lemma {:induction false} SingleUntouched(events: seq<Event>, e: Event, j: nat)
    requires j < |Openers(events)|
    ensures j < |Openers(events + [e])|
    ensures SingleOf(HistoryView(GroupBy(events + [e])[j])) == SingleOf(HistoryView(GroupBy(events)[j]))
  {
    OpenersGrow(events, e);
    var all, i := events + [e], Openers(events)[j];
    assert all[i] == events[i] && Openers(all)[j] == i;
    if KeyOf(events[i]).Some? {
      KeyedIsNotSingle(events, i);
      KeyedIsNotSingle(all, i);
    } else {
      RecordUntouched(events, e, i);
    }
  }

  // Records that show the same on their own.
  ghost predicate Alike(a: seq<Record>, b: seq<Record>, j: nat) {
    && j <= |a| && j <= |b|
    && forall k :: 0 <= k < j ==> SingleOf(HistoryView(a[k])) == SingleOf(HistoryView(b[k]))
  }

  lemma {:induction false} SinglesAlike(a: seq<Record>, b: seq<Record>, j: nat)
    requires Alike(a, b, j)
    ensures Singles(HistoryOf(a[..j])) == Singles(HistoryOf(b[..j]))
    decreases j
  {
    if j == 0 {
      assert a[..0] == b[..0];
    } else {
      SinglesAlike(a, b, j - 1);
      OneMoreAlike(a, b, j - 1);
    }
  }

  lemma {:induction false} OneMoreAlike(a: seq<Record>, b: seq<Record>, j: nat)
    requires j < |a| && j < |b| && SingleOf(HistoryView(a[j])) == SingleOf(HistoryView(b[j]))
    requires Singles(HistoryOf(a[..j])) == Singles(HistoryOf(b[..j]))
    ensures Singles(HistoryOf(a[..j + 1])) == Singles(HistoryOf(b[..j + 1]))
  {
    SinglesPrefix(a, j);
    SinglesPrefix(b, j);
  }

  lemma {:induction false} SinglesUntouched(events: seq<Event>, e: Event, j: nat)
    requires j <= |Openers(events)|
    ensures j <= |Openers(events + [e])|
    ensures Singles(HistoryOf(GroupBy(events + [e])[..j])) == Singles(HistoryOf(GroupBy(events)[..j]))
  {
    OpenersGrow(events, e);
    var a, b := GroupBy(events + [e]), GroupBy(events);
    forall k | 0 <= k < j ensures SingleOf(HistoryView(a[k])) == SingleOf(HistoryView(b[k])) {
      SingleUntouched(events, e, k);
    }
    SinglesAlike(a, b, j);
  }

  // What one more event adds to history's singles.
  lemma {:induction false} SinglesGrow(events: seq<Event>, e: Event)
    requires !IsTerminal(e.kind)
    ensures Singles(HistoryOf(GroupBy(events + [e]))) ==
      Singles(HistoryOf(GroupBy(events))) + if KeyOf(e) == None && Kept(e) then SingleOf(HistoryView(Plain(e))) else []
  {
    var all, n := events + [e], |Openers(events)|;
    OpenersGrow(events, e);
    SinglesUntouched(events, e, n);
    assert GroupBy(events)[..n] == GroupBy(events);
    if Opens(all, |events|) {
      assert GroupBy(all) == GroupBy(all)[..n + 1];
      SinglesPrefix(GroupBy(all), n);
      assert GroupBy(all)[n] == RecordAt(all, |events|);
      if KeyOf(e).Some? {
        KeyedIsNotSingle(all, |events|);
      }
    } else {
      assert GroupBy(all)[..n] == GroupBy(all);
      assert all[|events|] == e;
    }
  }

  predicate NothingLost(events: seq<Event>) {
    forall e :: e in events ==> !LostFromHistory(e)
  }

  lemma {:induction false} LiveSinglesGrow(front: seq<Event>, e: Event, clock: nat -> int)
    ensures Singles(Live(front + [e], clock)) == Singles(Live(front, clock)) + SingleOf(LiveView(e, clock(|front|)))
  {
    var n := |front|;
    FlattenMore(LiveViews(front, clock), LiveView(e, clock(n)));
    assert LiveViews(front + [e], clock) == LiveViews(front, clock) + [LiveView(e, clock(n))];
    SinglesAppend(Live(front, clock), LiveView(e, clock(n)));
  }

  // What one more event adds to the two views.
  lemma {:induction false} SinglesOfOne(front: seq<Event>, e: Event, clock: nat -> int)
    returns (live: seq<View>, history: seq<View>)
    requires !IsTerminal(e.kind)
    ensures Singles(Live(front + [e], clock)) == Singles(Live(front, clock)) + live
    ensures Singles(HistoryOf(GroupBy(front + [e]))) == Singles(HistoryOf(GroupBy(front))) + history
    ensures if LostFromHistory(e) then |live| == 1 && history == [] else live == history
  {
    var n := |front|;
    live := SingleOf(LiveView(e, clock(n)));
    history := if KeyOf(e) == None && Kept(e) then SingleOf(HistoryView(Plain(e))) else [];
    LiveSinglesGrow(front, e, clock);
    SinglesGrow(front, e);
    SameSingle(e, clock(n));
  }

  // The two lists of single views, compared.
  ghost predicate Compared(live: seq<View>, history: seq<View>, nothingLost: bool) {
    if nothingLost then live == history else |live| > |history|
  }

  lemma {:induction false} SinglesCompared(events: seq<Event>, clock: nat -> int)
    requires forall e :: e in events ==> !IsTerminal(e.kind)
    ensures Compared(Singles(Live(events, clock)), Singles(HistoryOf(GroupBy(events))), NothingLost(events))
    decreases |events|
  {
    if events != [] {
      var n := |events| - 1;
      var front, e := events[..n], events[n];
      assert events == front + [e] && e in events;
      SinglesCompared(front, clock);
      var live, history := SinglesOfOne(front, e, clock);
      NothingLostMore(front, e);
    }
  }

  lemma {:induction false} NothingLostMore(front: seq<Event>, e: Event)
    ensures NothingLost(front + [e]) <==> NothingLost(front) && !LostFromHistory(e)
  {
    assert e in front + [e];
  }

  /** Tool, approval, question and artifact events, the start, and unnamed deltas
      appear once each and in the same order in both views, exactly when every
      approval, question and delta payload can be read. */
  lemma {:induction false} SinglesAgree(events: seq<Event>, clock: nat -> int)
    requires SeqIncreasing(events) && forall e :: e in events ==> !IsTerminal(e.kind)
    ensures Singles(Live(events, clock)) == Singles(History(events)) <==> NothingLost(events)
  {
    ArchiveNeedsNoSort(events);
    SinglesCompared(events, clock);
  }

  // ------------------------------------------------------- what is shown

  function RoleOf(role: string): string {
    if role == "" then "assistant" else role
  }

  // A tool's outcome: the call's id and name, the value it returned, or its error
  // text if it failed without one.
  predicate ShowsResult(p: ViewPayload, r: ToolResult) {
    && p.ToolOutcome? && p.callID == r.callID && p.name == r.name
    && (p.status == "error" <==> r.isError) && (p.status == "success" <==> !r.isError)
    && (p.value.Value? <==> r.result.JsonResult?) && (p.value.Value? ==> p.value.json == r.result.text)
    && (p.value.ErrorText? <==> r.isError && !r.result.JsonResult?) && (p.value.ErrorText? ==> p.value.text == r.error)
  }

  // A role that is not named is the assistant's.
  predicate ShowsDelta(p: ViewPayload, e: Event) {
    && (e.payload.DeltaJson? ==>
      p == Delta(e.payload.delta.messageID, RoleOf(e.payload.delta.role), e.payload.delta.content))
    && (!IsObject(e.payload) ==> p == Delta("", "assistant", e.content))
  }

  predicate ShowsTodos(p: ViewPayload, e: Event) {
    p == TodoList(if e.payload.TodosJson? then e.payload.todos else [])
  }

  // An artifact's time is left out.
  predicate ShowsArtifact(p: ViewPayload, e: Event) {
    e.payload.ArtifactJson? ==>
      p.ArtifactView? && p.artifact.(createdAt := 0) == e.payload.artifact.(createdAt := 0)
  }

  predicate ShowsTerminal(p: ViewPayload, e: Event, unread: ViewPayload) {
    && (e.payload.TerminalJson? ==> p == TerminalView(e.payload.terminal))
    && (!IsObject(e.payload) ==> p == unread)
  }

  /** The view of an event, kind by kind: what its own payload says, and what is shown
      live of one that cannot be read. */
  predicate Shows(v: View, e: Event) {
    && v.seqNo == e.seqNo
    && match e.kind
       case RunStarted => v.kind == Started && v.payload == NoPayload
       case MessageDelta => v.kind == Message && ShowsDelta(v.payload, e)
       case ReasoningDelta => v.kind == Reasoning && ShowsDelta(v.payload, e)
       case ToolCallStarted =>
         v.kind == ToolStarted && (e.payload.ToolCallJson? ==> v.payload == Tool(e.payload.call))
       case ToolCallCompleted =>
         v.kind == ToolFinished && (e.payload.ToolResultJson? ==> ShowsResult(v.payload, e.payload.toolResult))
       case ToolCallFailed =>
         v.kind == ToolFinished && (e.payload.ToolResultJson? ==> ShowsResult(v.payload, e.payload.toolResult))
       case TodoSnapshot => v.kind == Todos && ShowsTodos(v.payload, e)
       case TodoUpdated => v.kind == TodosChanged && ShowsTodos(v.payload, e)
       case ArtifactDeclared => v.kind == Declared && ShowsArtifact(v.payload, e)
       case ApprovalRequested =>
         && v.kind == ApprovalAsked && (!IsObject(e.payload) ==> v.payload == NoPayload)
         && (e.payload.ApprovalRequestJson? ==> v.payload == ApprovalRequestView(e.payload.approvalRequest))
       case ApprovalResolved =>
         && v.kind == ApprovalGiven && (!IsObject(e.payload) ==> v.payload == NoPayload)
         && (e.payload.ApprovalDecisionJson? ==> v.payload == ApprovalDecisionView(e.payload.approvalDecision))
       case QuestionAsked =>
         && v.kind == Asked && (!IsObject(e.payload) ==> v.payload == NoPayload)
         && (e.payload.QuestionRequestJson? ==> v.payload == QuestionView(e.payload.questionRequest))
       case QuestionAnswered =>
         && v.kind == Answered && (!IsObject(e.payload) ==> v.payload == NoPayload)
         && (e.payload.QuestionAnswerJson? ==> v.payload == AnswerView(e.payload.questionAnswer))
       case RunCompleted => v.kind == Completed && ShowsTerminal(v.payload, e, NoPayload)
       case RunFailed => v.kind == Failed && ShowsTerminal(v.payload, e, StatusView("failed", e.content))
       case RunCancelled => v.kind == Cancelled && ShowsTerminal(v.payload, e, StatusView("cancelled", CANCELLED_TEXT))
       case _ => false
  }

  // Tool and artifact events are shown if their payload is an object; the rest of
  // what has a view is shown live in any case.
  predicate ShownLive(e: Event) {
    match e.kind
    case ToolCallStarted => IsObject(e.payload)
    case ToolCallCompleted => IsObject(e.payload)
    case ToolCallFailed => IsObject(e.payload)
    case ArtifactDeclared => IsObject(e.payload)
    case MessageResult => false
    case ExecutionStarted => false
    case ExecutionCompleted => false
    case ExecutionFailed => false
    case ExecutionCancelled => false
    case OtherType(_) => false
    case _ => true
  }

  // In history, apart from deltas of a named message and todo lists: the start, and
  // whatever else has an object for its payload.
  predicate ShownInHistory(e: Event) {
    && ShownLive(e) && !IsTerminal(e.kind) && !e.kind.TodoSnapshot? && !e.kind.TodoUpdated?
    && (e.kind.RunStarted? || IsObject(e.payload)) && (IsDelta(e.kind) ==> KeyOf(e) == None)
  }

  function Those(events: seq<Event>, shown: Event -> bool): seq<Event> {
    if events == [] then []
    else
      var n := |events| - 1;
      Those(events[..n], shown) + if shown(events[n]) then [events[n]] else []
  }

  // One view for each of these events, in their order.
  ghost predicate Stands(views: seq<View>, events: seq<Event>) {
    && |views| == |events|
    && forall k :: 0 <= k < |views| ==> Shows(views[k], events[k])
  }

  lemma {:induction false} LiveViewIsShown(e: Event, publishedAt: int)
    ensures LiveView(e, publishedAt).Some? <==> ShownLive(e)
  {
  }

  predicate IsTool(kind: EventType) {
    kind.ToolCallStarted? || kind.ToolCallCompleted? || kind.ToolCallFailed?
  }

  lemma {:induction false} LiveToolShows(e: Event, publishedAt: int)
    requires ShownLive(e) && IsTool(e.kind)
    ensures LiveView(e, publishedAt).Some? && Shows(LiveView(e, publishedAt).value, e)
  {
  }

  lemma {:induction false} LiveDeltaShows(e: Event, publishedAt: int)
    requires IsDelta(e.kind)
    ensures LiveView(e, publishedAt).Some? && Shows(LiveView(e, publishedAt).value, e)
  {
  }

  lemma {:induction false} LiveTerminalShows(e: Event, publishedAt: int)
    requires IsTerminal(e.kind)
    ensures LiveView(e, publishedAt).Some? && Shows(LiveView(e, publishedAt).value, e)
  {
  }

  lemma {:induction false} LiveOtherShows(e: Event, publishedAt: int)
    requires ShownLive(e) && !IsTool(e.kind) && !IsDelta(e.kind) && !IsTerminal(e.kind)
    ensures LiveView(e, publishedAt).Some? && Shows(LiveView(e, publishedAt).value, e)
  {
  }

  lemma {:induction false} LiveViewShows(e: Event, publishedAt: int)
    requires ShownLive(e)
    ensures LiveView(e, publishedAt).Some? && Shows(LiveView(e, publishedAt).value, e)
  {
    if IsTool(e.kind) {
      LiveToolShows(e, publishedAt);
    } else if IsDelta(e.kind) {
      LiveDeltaShows(e, publishedAt);
    } else if IsTerminal(e.kind) {
      LiveTerminalShows(e, publishedAt);
    } else {
      LiveOtherShows(e, publishedAt);
    }
  }

  /** Live, an artifact carries the time it was published. */
  lemma {:induction false} ArtifactIsDated(e: Event, publishedAt: int)
    requires e.kind.ArtifactDeclared? && e.payload.ArtifactJson?
    ensures LiveView(e, publishedAt) ==
      Some(View(Declared, e.seqNo, ArtifactView(e.payload.artifact.(createdAt := publishedAt))))
  {
  }

  lemma {:induction false} HistoryViewShows(e: Event)
    requires !IsTerminal(e.kind) && KeyOf(e) == None
    ensures
      var o := SingleOf(HistoryView(Plain(e)));
      && (ShownInHistory(e) ==> |o| == 1 && Shows(o[0], e))
      && (!ShownInHistory(e) ==> o == [])
  {
  }

  lemma {:induction false} StandsMore(views: seq<View>, events: seq<Event>, v: View, e: Event)
    requires Stands(views, events) && Shows(v, e)
    ensures Stands(views + [v], events + [e])
  {
  }

  /** Live shows one view for each event that has one, in order, with what its payload
      says. */
  lemma {:induction false} LiveShowsEach(events: seq<Event>, clock: nat -> int)
    ensures Stands(Live(events, clock), Those(events, ShownLive))
    decreases |events|
  {
    if events != [] {
      var n := |events| - 1;
      var front, e := events[..n], events[n];
      LiveShowsEach(front, clock);
      LiveViewIsShown(e, clock(n));
      assert LiveViews(events, clock) == LiveViews(front, clock) + [LiveView(e, clock(n))];
      FlattenMore(LiveViews(front, clock), LiveView(e, clock(n)));
      if ShownLive(e) {
        LiveViewShows(e, clock(n));
        StandsMore(Live(front, clock), Those(front, ShownLive), LiveView(e, clock(n)).value, e);
      }
    }
  }

  /** And history shows one for each that stands alone and can be read. */
  lemma {:induction false} HistoryShowsEach(events: seq<Event>)
    requires SeqIncreasing(events) && forall e :: e in events ==> !IsTerminal(e.kind)
    ensures Stands(Singles(History(events)), Those(events, ShownInHistory))
  {
    ArchiveNeedsNoSort(events);
    GroupByShowsEach(events);
  }

  lemma {:induction false} GroupByShowsEach(events: seq<Event>)
    requires forall e :: e in events ==> !IsTerminal(e.kind)
    ensures Stands(Singles(HistoryOf(GroupBy(events))), Those(events, ShownInHistory))
    decreases |events|
  {
    if events != [] {
      var n := |events| - 1;
      var front, e := events[..n], events[n];
      assert events == front + [e];
      GroupByShowsEach(front);
      SinglesGrow(front, e);
      var before := Singles(HistoryOf(GroupBy(front)));
      if KeyOf(e) == None {
        HistoryViewShows(e);
      }
      if ShownInHistory(e) {
        StandsMore(before, Those(front, ShownInHistory), SingleOf(HistoryView(Plain(e)))[0], e);
      } else {
        assert before + [] == before;
      }
    }
  }
}
