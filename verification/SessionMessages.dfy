/**
 The messages of one session under the two projectors: run.state events change
 statuses and append assistant messages, the first run.stream event stamps a
 start sequence. Deliveries may be repeated and reordered at will.

 Each service call runs in one transaction and is one atomic delivery here.
 */
module SessionMessages {
  import opened Common
  import opened Text
  import E = Events

  datatype Role = User | Assistant | OtherRole

  datatype Status = Pending | Processing | Completed | Failed | Cancelled

  // The two start sequences live in the metadata map; None is a missing key.
  datatype Message = Message(
    role: Role,
    status: Status,
    content: string,
    errorMsg: string,
    stateStart: Option<nat>,
    streamStart: Option<nat>,
    updatedAt: int)

  type Table = map<nat, Message>

  // Half an hour, in milliseconds.
  const PROCESSING_WINDOW: int := 1_800_000

  // Only a positive number counts as a stored sequence.
  function StoredSeq(o: Option<nat>): Option<nat> {
    if o.Some? && o.value > 0 then o else None
  }

  // --------------------------------------------------------------- reply ids

  function ParseID(raw: string): Option<nat> {
    match ParseUint(TrimSpace(raw))
    case Some(id) => if id == 0 then None else Some(id)
    case None => None
  }

  function MessageIDFromRequestID(requestID: string): Option<nat> {
    var value := TrimSpace(requestID);
    if "req_" <= value then
      match ParseUint(value[4..])
      case Some(id) => if id == 0 then None else Some(id)
      case None => None
    else None
  }

  function ParsedIDs(raws: seq<string>): (r: seq<Option<nat>>)
    ensures |r| == |raws|
  {
    seq(|raws|, k requires 0 <= k < |raws| => ParseID(raws[k]))
  }

  // The readable ids, each at its first mention.
  function Distinct(parsed: seq<Option<nat>>): seq<nat> {
    if parsed == [] then []
    else
      var before, last := Distinct(parsed[..|parsed| - 1]), parsed[|parsed| - 1];
      if last == None || last.value in before then before else before + [last.value]
  }

  predicate NoRepeats(ids: seq<nat>) {
    forall i, j :: 0 <= i < j < |ids| ==> ids[i] != ids[j]
  }

  lemma {:induction false} DistinctMeaning(parsed: seq<Option<nat>>)
    ensures NoRepeats(Distinct(parsed))
    ensures forall id :: id in Distinct(parsed) <==> Some(id) in parsed
    decreases |parsed|
  {
    if parsed != [] {
      var front, last := parsed[..|parsed| - 1], parsed[|parsed| - 1];
      DistinctMeaning(front);
      assert parsed == front + [last];
    }
  }

  lemma {:induction false} DistinctIsIdentity(ids: seq<nat>, parsed: seq<Option<nat>>)
    requires NoRepeats(ids) && |parsed| == |ids|
    requires forall k :: 0 <= k < |ids| ==> parsed[k] == Some(ids[k])
    ensures Distinct(parsed) == ids
    decreases |ids|
  {
    if ids != [] {
      var front, last := ids[..|ids| - 1], ids[|ids| - 1];
      DistinctIsIdentity(front, parsed[..|ids| - 1]);
      assert ids == front + [last];
    }
  }

  function ListedIDs(raws: seq<string>): seq<nat> {
    Distinct(ParsedIDs(raws))
  }

  /** Exactly the ids that some string spells, none of them zero, none twice. */
  lemma {:induction false} ListedIDsMeaning(raws: seq<string>)
    ensures NoRepeats(ListedIDs(raws))
    ensures forall id :: id in ListedIDs(raws) <==> exists k :: 0 <= k < |raws| && ParseID(raws[k]) == Some(id)
    ensures 0 !in ListedIDs(raws)
  {
    var parsed := ParsedIDs(raws);
    DistinctMeaning(parsed);
    forall id: nat ensures Some(id) in parsed <==> exists k :: 0 <= k < |raws| && ParseID(raws[k]) == Some(id) {
      if Some(id) in parsed {
        var k :| 0 <= k < |parsed| && parsed[k] == Some(id);
        assert ParseID(raws[k]) == Some(id);
      }
      if k :| 0 <= k < |raws| && ParseID(raws[k]) == Some(id) {
        assert parsed[k] == Some(id);
      }
    }
  }

  function ReplyIDs(raws: seq<string>, requestID: string): seq<nat> {
    if ListedIDs(raws) != [] then ListedIDs(raws)
    else match MessageIDFromRequestID(requestID)
      case Some(id) => [id]
      case None => []
  }

  method DistinctIDs(parsed: seq<Option<nat>>) returns (result: seq<nat>)
    ensures result == Distinct(parsed) && NoRepeats(result)
  {
    var seen: set<nat> := {};
    result := [];
    for k := 0 to |parsed|
      invariant result == Distinct(parsed[..k])
      invariant seen == set id | id in result
    {
      assert parsed[..k + 1][..k] == parsed[..k];
      if parsed[k] == None { continue; }
      var id := parsed[k].value;
      if id in seen { continue; }
      seen := seen + {id};
      result := result + [id];
    }
    assert parsed[..|parsed|] == parsed;
    DistinctMeaning(parsed);
  }

  method ReplyMessageIDs(raws: seq<string>, fallbackRequestID: string) returns (result: seq<nat>)
    ensures result == ReplyIDs(raws, fallbackRequestID) && NoRepeats(result)
  {
    result := DistinctIDs(ParsedIDs(raws));
    if result == [] {
      var id := MessageIDFromRequestID(fallbackRequestID);
      if id.Some? {
        result := result + [id.value];
      }
    }
  }

  // The ids as they are stored with the assistant's message.
  function IDStrings(ids: seq<nat>): (r: seq<string>)
    ensures |r| == |ids|
  {
    seq(|ids|, k requires 0 <= k < |ids| => FormatUint(ids[k]))
  }

  lemma {:induction false} ParsedIDReadsBack(raw: string, id: nat)
    requires ParseID(raw) == Some(id)
    ensures ParseID(FormatUint(id)) == Some(id)
  {
    ParseFormat(id);
  }

  /** What is stored reads back as the same ids, in the same order. */
  lemma {:induction false} StoredIDsReadBack(raws: seq<string>)
    ensures ListedIDs(IDStrings(ListedIDs(raws))) == ListedIDs(raws)
  {
    var ids := ListedIDs(raws);
    ListedIDsMeaning(raws);
    forall k | 0 <= k < |ids| ensures ParsedIDs(IDStrings(ids))[k] == Some(ids[k]) {
      assert ids[k] in ids;
      var r :| 0 <= r < |raws| && ParseID(raws[r]) == Some(ids[k]);
      ParsedIDReadsBack(raws[r], ids[k]);
    }
    DistinctIsIdentity(ids, ParsedIDs(IDStrings(ids)));
  }

  lemma {:induction false} NoFallback(raws: seq<string>)
    ensures ReplyIDs(raws, "") == ListedIDs(raws)
  {
    assert TrimSpace("") == "";
  }

  // ------------------------------------------------------- what a call does

  // What a call does to each row it is given.
  datatype Change = Start(streamSeq: nat, stateSeq: nat, now: int) | End(status: Status, now: int)

  function ChangeRow(m: Message, c: Change): Message {
    match c
    case Start(streamSeq, stateSeq, now) =>
      if m.role != User || m.status != Pending then m
      else m.(status := Processing,
              streamStart := if streamSeq > 0 then Some(streamSeq) else m.streamStart,
              stateStart := if stateSeq > 0 then Some(stateSeq) else m.stateStart,
              updatedAt := now)
    case End(status, now) =>
      if m.role != User then m else m.(status := status, updatedAt := now)
  }

  function UpdateRows(t: Table, ids: seq<nat>, c: Change): Table {
    map id | id in t :: if id in ids then ChangeRow(t[id], c) else t[id]
  }

  // One more id of a list without repetitions.
  lemma {:induction false} UpdateOne(t: Table, ids: seq<nat>, k: nat, c: Change)
    requires k < |ids| && NoRepeats(ids)
    ensures var (before, id) := (UpdateRows(t, ids[..k], c), ids[k]);
      && (id in t <==> id in before) && (id in t ==> before[id] == t[id])
      && UpdateRows(t, ids[..k + 1], c) == if id in t then before[id := ChangeRow(t[id], c)] else before
  {
    assert ids[..k + 1] == ids[..k] + [ids[k]];
    assert ids[k] !in ids[..k];
  }

  predicate Recent(m: Message, since: int) {
    m.role == User && m.status == Processing && m.updatedAt >= since
  }

  function StampRow(m: Message, streamSeq: nat, now: int): Message {
    if Recent(m, now - PROCESSING_WINDOW) && StoredSeq(m.streamStart) == None
    then m.(streamStart := Some(streamSeq), updatedAt := now) else m
  }

  function StampRows(t: Table, streamSeq: nat, now: int): Table {
    map id | id in t :: StampRow(t[id], streamSeq, now)
  }

  datatype State = State(messages: Table, nextID: nat, streamSeen: bool)

  // A finished run's payload, as far as messages are concerned.
  datatype Finished = Finished(status: Status, message: string)

  datatype RunState =
    | RunStarted
    | RunCompleted(completed: Option<Finished>)
    | RunFailed(payload: string, completed: Option<Finished>, error: Option<string>)
    | RunCancelled(completed: Option<Finished>, error: Option<string>)
    | OtherEvent

  datatype Delivery =
    | Post(content: string, now: int)
    | StateEvent(event: RunState, replyTo: seq<string>, requestID: string, streamSeq: nat, now: int)
    | StreamEvent(streamSeq: nat, now: int)
    | Restart

  // The assistant message and the reply status that a failed run asks for.
  datatype Ending = Ending(status: Status, content: string, errorMsg: string)

  function FailedEnding(payload: string, completed: Option<Finished>, error: Option<string>): (e: Ending)
    ensures e.status in {Failed, Cancelled}
  {
    var told := completed.Some? && completed.value.message != "";
    var cancelled := told && completed.value.status == Cancelled;
    var content := if cancelled then E.CANCELLED_TEXT else if told then completed.value.message else payload;
    var errMsg :=
      if error.Some? then error.value else if told then completed.value.message else payload;
    Ending(if cancelled then Cancelled else Failed, content, errMsg)
  }

  function CancelledEnding(completed: Option<Finished>, error: Option<string>): Ending {
    var content :=
      if completed.Some? && completed.value.message != "" then completed.value.message else E.CANCELLED_TEXT;
    var errMsg := if error.Some? && TrimSpace(error.value) != "" then error.value else "run cancelled";
    Ending(Cancelled, content, errMsg)
  }

  // Appends the assistant's message, then closes the user messages it answers.
  function Close(s: State, ending: Ending, replyTo: seq<string>, now: int): State {
    var content := if ending.content == "" then ending.errorMsg else ending.content;
    var reply := Message(Assistant, ending.status, content, ending.errorMsg, None, None, now);
    s.(messages := UpdateRows(s.messages[s.nextID := reply], ListedIDs(replyTo), End(ending.status, now)),
       nextID := s.nextID + 1)
  }

  function Deliver(s: State, d: Delivery): State {
    match d
    case Post(content, now) =>
      s.(messages := s.messages[s.nextID := Message(User, Pending, content, "", None, None, now)],
         nextID := s.nextID + 1)
    case StateEvent(event, replyTo, requestID, streamSeq, now) =>
      (match event
       case RunStarted =>
         if streamSeq == 0 then s
         else s.(messages := UpdateRows(s.messages, ReplyIDs(replyTo, requestID), Start(0, streamSeq, now)))
       case RunCompleted(completed) =>
         if completed == None then s
         else Close(s, Ending(Completed, completed.value.message, ""), replyTo, now)
       case RunFailed(payload, completed, error) => Close(s, FailedEnding(payload, completed, error), replyTo, now)
       case RunCancelled(completed, error) => Close(s, CancelledEnding(completed, error), replyTo, now)
       case OtherEvent => s)
    case StreamEvent(streamSeq, now) =>
      if s.streamSeen then s
      else s.(messages := StampRows(s.messages, streamSeq, now), streamSeen := true)
    case Restart => s.(streamSeen := false)
  }

  ghost predicate Fresh(s: State) {
    forall id :: id in s.messages ==> id < s.nextID
  }

  // ------------------------------------------------------------ the service

  class SessionService {
    var messages: Table
    var nextID: nat
    var streamSeen: bool

    function View(): State
      reads this
    {
      State(messages, nextID, streamSeen)
    }

    constructor ()
      ensures View() == State(map[], 1, false)
    {
      messages, nextID, streamSeen := map[], 1, false;
    }

    method PostUserMessage(content: string, now: int)
      modifies this
      ensures View() == Deliver(old(View()), Post(content, now))
    {
      messages := messages[nextID := Message(User, Pending, content, "", None, None, now)];
      nextID := nextID + 1;
    }

    method HandleSessionRunStarted(replyTo: seq<string>, requestID: string, streamSeq: nat, stateSeq: nat, now: int)
      returns (ok: bool)
      modifies this
      ensures ok <==> stateSeq > 0 && ReplyIDs(replyTo, requestID) != []
      ensures nextID == old(nextID) && streamSeen == old(streamSeen)
      ensures messages == if stateSeq == 0 then old(messages) else
        UpdateRows(old(messages), ReplyIDs(replyTo, requestID), Start(streamSeq, stateSeq, now))
    {
      if stateSeq == 0 { return false; }
      var ids := ReplyMessageIDs(replyTo, requestID);
      ok := ids != [];
      for k := 0 to |ids|
        invariant nextID == old(nextID) && streamSeen == old(streamSeen)
        invariant messages == UpdateRows(old(messages), ids[..k], Start(streamSeq, stateSeq, now))
      {
        var id := ids[k];
        UpdateOne(old(messages), ids, k, Start(streamSeq, stateSeq, now));
        if id in messages && messages[id].role == User && messages[id].status == Pending {
          var message := messages[id].(status := Processing, updatedAt := now);
          if streamSeq > 0 {
            message := message.(streamStart := Some(streamSeq));
          }
          message := message.(stateStart := Some(stateSeq));
          messages := messages[id := message];
        }
      }
      assert ids[..|ids|] == ids;
    }

    method SetSessionStreamStartSeq(streamSeq: nat, now: int)
      modifies this
      ensures nextID == old(nextID) && streamSeen == old(streamSeen)
      ensures messages == StampRows(old(messages), streamSeq, now)
    {
      var todo := set id | id in messages && Recent(messages[id], now - PROCESSING_WINDOW);
      while todo != {}
        invariant nextID == old(nextID) && streamSeen == old(streamSeen)
        invariant messages.Keys == old(messages).Keys
        invariant todo <= old(messages).Keys && forall id :: id in todo ==>
          Recent(old(messages)[id], now - PROCESSING_WINDOW)
        invariant forall id :: id in old(messages) ==>
          messages[id] == if id in todo then old(messages)[id] else StampRow(old(messages)[id], streamSeq, now)
        decreases |todo|
      {
        var id :| id in todo;
        todo := todo - {id};
        if messages[id].status == Processing && StoredSeq(messages[id].streamStart) == None {
          messages := messages[id := messages[id].(streamStart := Some(streamSeq), updatedAt := now)];
        }
      }
    }

    // Creates the assistant's message and updates the messages it replies to.
    method Finish(ending: Ending, replyTo: seq<string>, now: int)
      modifies this
      ensures View() == Close(old(View()), ending, replyTo, now)
    {
      var content := ending.content;
      if content == "" {
        content := ending.errorMsg;
      }
      messages := messages[nextID := Message(Assistant, ending.status, content, ending.errorMsg, None, None, now)];
      nextID := nextID + 1;
      ghost var created := messages;
      var ids := ReplyMessageIDs(replyTo, "");
      NoFallback(replyTo);
      for k := 0 to |ids|
        invariant nextID == old(nextID) + 1 && streamSeen == old(streamSeen)
        invariant messages == UpdateRows(created, ids[..k], End(ending.status, now))
      {
        var id := ids[k];
        UpdateOne(created, ids, k, End(ending.status, now));
        if id in messages && messages[id].role == User {
          messages := messages[id := messages[id].(status := ending.status, updatedAt := now)];
        }
      }
      assert ids[..|ids|] == ids;
    }

    method CompleteSessionMessage(content: string, replyTo: seq<string>, now: int)
      modifies this
      ensures View() == Close(old(View()), Ending(Completed, content, ""), replyTo, now)
    {
      Finish(Ending(Completed, content, ""), replyTo, now);
    }

    method FailedSessionMessage(ending: Ending, replyTo: seq<string>, now: int)
      modifies this
      ensures View() == Close(old(View()), ending, replyTo, now)
    {
      Finish(ending, replyTo, now);
    }

    /** The state projector's dispatch; stream sequences come from the log, which
        numbers from one. */
    method HandleRunStateMessage(event: RunState, replyTo: seq<string>, requestID: string, streamSeq: nat, now: int)
      modifies this
      ensures View() == Deliver(old(View()), StateEvent(event, replyTo, requestID, streamSeq, now))
    {
      match event {
        case RunStarted =>
          var ok := HandleSessionRunStarted(replyTo, requestID, 0, streamSeq, now);
        case RunCompleted(completed) =>
          if completed.Some? {
            CompleteSessionMessage(completed.value.message, replyTo, now);
          }
        case RunFailed(payload, completed, error) =>
          var content, errMsg, status := payload, payload, Failed;
          if completed.Some? && completed.value.message != "" {
            content, errMsg := completed.value.message, completed.value.message;
            if completed.value.status == Cancelled {
              status, content := Cancelled, E.CANCELLED_TEXT;
            }
          }
          if error.Some? {
            errMsg := error.value;
          }
          FailedSessionMessage(Ending(status, content, errMsg), replyTo, now);
        case RunCancelled(completed, error) =>
          FailedSessionMessage(CancelledEnding(completed, error), replyTo, now);
        case OtherEvent =>
      }
    }

    method HandleRunStreamMessage(streamSeq: nat, now: int)
      modifies this
      ensures View() == Deliver(old(View()), StreamEvent(streamSeq, now))
    {
      if streamSeen { return; }
      streamSeen := true;
      SetSessionStreamStartSeq(streamSeq, now);
    }
  }

  // ------------------------------------------------- what deliveries preserve

  function Rank(status: Status): nat {
    match status
    case Pending => 0
    case Processing => 1
    case _ => 2
  }

  // A later state of the same row.
  predicate RowEvolves(m: Message, later: Message) {
    && later.role == m.role
    && (m.role != User ==> later == m)
    && Rank(m.status) <= Rank(later.status)
    && (m.stateStart.Some? ==> later.stateStart == m.stateStart)
    && (StoredSeq(m.streamStart).Some? ==> later.streamStart == m.streamStart)
  }

  ghost predicate Evolves(s: State, t: State) {
    forall id :: id in s.messages ==> id in t.messages && RowEvolves(s.messages[id], t.messages[id])
  }

  // A message being answered knows where its run starts in the log.
  predicate RowOK(m: Message) {
    m.role == User ==>
      && (m.status == Pending ==> m.stateStart == None && m.streamStart == None)
      && (m.status == Processing ==> m.stateStart.Some? && m.stateStart.value > 0)
  }

  ghost predicate Inv(s: State) {
    Fresh(s) && forall id :: id in s.messages ==> RowOK(s.messages[id])
  }

  lemma {:induction false} CloseStep(s: State, ending: Ending, replyTo: seq<string>, now: int)
    requires Inv(s) && Rank(ending.status) == 2
    ensures Inv(Close(s, ending, replyTo, now)) && Evolves(s, Close(s, ending, replyTo, now))
  {
  }

  lemma {:induction false} CloseRow(s: State, ending: Ending, replyTo: seq<string>, now: int, id: nat)
    requires Fresh(s) && id in s.messages && id in ListedIDs(replyTo)
    ensures id in Close(s, ending, replyTo, now).messages
    ensures Close(s, ending, replyTo, now).messages[id] == ChangeRow(s.messages[id], End(ending.status, now))
  {
    assert id != s.nextID;
  }

  lemma {:induction false} DeliverStep(s: State, d: Delivery)
    requires Inv(s)
    ensures Inv(Deliver(s, d)) && Evolves(s, Deliver(s, d))
  {
    match d
    case StateEvent(event, replyTo, _, _, now) =>
      match event {
        case RunCompleted(completed) =>
          if completed.Some? {
            CloseStep(s, Ending(Completed, completed.value.message, ""), replyTo, now);
          }
        case RunFailed(payload, completed, error) =>
          CloseStep(s, FailedEnding(payload, completed, error), replyTo, now);
        case RunCancelled(completed, error) =>
          CloseStep(s, CancelledEnding(completed, error), replyTo, now);
        case _ =>
      }
    case _ =>
  }

  function DeliverAll(s: State, ds: seq<Delivery>): State
    decreases |ds|
  {
    if ds == [] then s else DeliverAll(Deliver(s, ds[0]), ds[1..])
  }

  const EMPTY := State(map[], 1, false)

  lemma {:induction false} DeliveriesPreserve(s: State, ds: seq<Delivery>)
    requires Inv(s)
    ensures Inv(DeliverAll(s, ds)) && Evolves(s, DeliverAll(s, ds))
    decreases |ds|
  {
    if ds != [] {
      DeliverStep(s, ds[0]);
      DeliveriesPreserve(Deliver(s, ds[0]), ds[1..]);
    }
  }

  /** Whatever is delivered, repeated or reordered: statuses only move forward,
      each start sequence is set at most once, a processing message knows its
      start, and other people's messages are never touched. */
  lemma {:induction false} DeliveriesOnlyMoveForward(first: seq<Delivery>, more: seq<Delivery>)
    ensures Evolves(DeliverAll(EMPTY, first), DeliverAll(DeliverAll(EMPTY, first), more))
    ensures forall id :: id in DeliverAll(EMPTY, first).messages ==> RowOK(DeliverAll(EMPTY, first).messages[id])
  {
    DeliveriesPreserve(EMPTY, first);
    DeliveriesPreserve(DeliverAll(EMPTY, first), more);
  }

  // ------------------------------------------- what each delivery leaves behind

  // The assistant's reply is added under the next id, and the user messages it
  // answers get the status; every other message stays as it is.
  ghost predicate Replied(s: State, t: State, reply: Message, replyTo: seq<string>, status: Status, now: int) {
    && t.nextID == s.nextID + 1 && t.streamSeen == s.streamSeen
    && t.messages.Keys == s.messages.Keys + {s.nextID} && t.messages[s.nextID] == reply
    && forall id :: id in s.messages ==>
         t.messages[id] ==
         if s.messages[id].role == User && exists k :: 0 <= k < |replyTo| && ParseID(replyTo[k]) == Some(id)
         then s.messages[id].(status := status, updatedAt := now)
         else s.messages[id]
  }

  function Reply(status: Status, content: string, errorMsg: string, now: int): Message {
    Message(Assistant, status, content, errorMsg, None, None, now)
  }

  lemma {:induction false} ClosedReplies(s: State, ending: Ending, replyTo: seq<string>, now: int)
    requires Fresh(s)
    ensures
      var content := if ending.content != "" then ending.content else ending.errorMsg;
      Replied(s, Close(s, ending, replyTo, now), Reply(ending.status, content, ending.errorMsg, now), replyTo,
              ending.status, now)
  {
    ListedIDsMeaning(replyTo);
    forall id | id in s.messages ensures id != s.nextID {
    }
  }

  /** A completed run stores its message as a completed reply. */
  lemma {:induction false} CompletedRun(
    s: State, finished: Finished, replyTo: seq<string>, requestID: string, seqNo: nat, now: int)
    requires Fresh(s)
    ensures
      var t := Deliver(s, StateEvent(RunCompleted(Some(finished)), replyTo, requestID, seqNo, now));
      Replied(s, t, Reply(Completed, finished.message, "", now), replyTo, Completed, now)
    ensures Deliver(s, StateEvent(RunCompleted(None), replyTo, requestID, seqNo, now)) == s
  {
    ClosedReplies(s, Ending(Completed, finished.message, ""), replyTo, now);
  }

  // The run's own message, if it finished with one.
  function Told(completed: Option<Finished>): string {
    if completed.Some? then completed.value.message else ""
  }

  /** A failed run stores what it told, or else its payload, or else the error; the
      error text is the error's own, or else what it told, or else the payload. One
      that told something and says it was cancelled is stored as cancelled. */
  lemma {:induction false} FailedRun(
    s: State, payload: string, completed: Option<Finished>, error: Option<string>,
    replyTo: seq<string>, requestID: string, seqNo: nat, now: int)
    requires Fresh(s)
    ensures
      var t := Deliver(s, StateEvent(RunFailed(payload, completed, error), replyTo, requestID, seqNo, now));
      var text := if error.Some? then error.value else if Told(completed) != "" then Told(completed) else payload;
      if Told(completed) == "" then
        Replied(s, t, Reply(Failed, if payload != "" then payload else text, text, now), replyTo, Failed, now)
      else if completed.value.status != Cancelled then
        Replied(s, t, Reply(Failed, Told(completed), text, now), replyTo, Failed, now)
      else
        Replied(s, t, Reply(Cancelled, E.CANCELLED_TEXT, text, now), replyTo, Cancelled, now)
  {
    ClosedReplies(s, FailedEnding(payload, completed, error), replyTo, now);
  }

  /** A cancelled run stores what it told, or that it was cancelled. */
  lemma {:induction false} CancelledRun(
    s: State, completed: Option<Finished>, error: Option<string>,
    replyTo: seq<string>, requestID: string, seqNo: nat, now: int)
    requires Fresh(s)
    ensures
      var t := Deliver(s, StateEvent(RunCancelled(completed, error), replyTo, requestID, seqNo, now));
      var content := if Told(completed) != "" then Told(completed) else E.CANCELLED_TEXT;
      if error.Some? && TrimSpace(error.value) != "" then
        Replied(s, t, Reply(Cancelled, content, error.value, now), replyTo, Cancelled, now)
      else
        Replied(s, t, Reply(Cancelled, content, "run cancelled", now), replyTo, Cancelled, now)
  {
    ClosedReplies(s, CancelledEnding(completed, error), replyTo, now);
  }

  /** A started run puts the pending user messages it answers to processing, from the
      position of its event on, and touches nothing else. */
  lemma {:induction false} StartedRun(s: State, replyTo: seq<string>, requestID: string, seqNo: nat, now: int)
    ensures
      var t := Deliver(s, StateEvent(RunStarted, replyTo, requestID, seqNo, now));
      && t.messages.Keys == s.messages.Keys && t.nextID == s.nextID && t.streamSeen == s.streamSeen
      && forall id :: id in s.messages ==>
           t.messages[id] ==
           if seqNo > 0 && id in ReplyIDs(replyTo, requestID) &&
              s.messages[id].role == User && s.messages[id].status == Pending
           then s.messages[id].(status := Processing, stateStart := Some(seqNo), updatedAt := now)
           else s.messages[id]
  {
  }

  /** The first stream event since the process started stamps the user messages that
      have been processing within half an hour and carry no stamp. */
  lemma {:induction false} StampedMessages(s: State, streamSeq: nat, now: int)
    ensures
      var t := Deliver(s, StreamEvent(streamSeq, now));
      && t.streamSeen && t.nextID == s.nextID && t.messages.Keys == s.messages.Keys
      && forall id :: id in s.messages ==>
           var m := s.messages[id];
           t.messages[id] ==
           if !s.streamSeen && m.role == User && m.status == Processing && now - m.updatedAt <= 30 * 60 * 1000 &&
              (m.streamStart == None || m.streamStart == Some(0))
           then m.(streamStart := Some(streamSeq), updatedAt := now)
           else m
  {
  }

  /** A reply id is a number with any spaces around it; zero is none. Without one the
      request's own id is read behind its prefix. */
  lemma {:induction false} SpelledID(id: nat, before: string, after: string)
    requires 0 < id < UINT64_LIMIT
    requires forall i :: 0 <= i < |before| ==> IsSpace(before[i])
    requires forall i :: 0 <= i < |after| ==> IsSpace(after[i])
    ensures ParseID(before + FormatUint(id) + after) == Some(id) && ParseID("0") == None
    ensures ReplyIDs([], "req_" + FormatUint(id)) == [id]
  {
    var text := FormatUint(id);
    ParseFormat(id);
    TrimmedIsFixed(text, IsSpace);
    TrimAround(before, text, after, IsSpace);
    var request := "req_" + text;
    assert request[4..] == text;
    assert IsDigit(text[|text| - 1]);
    TrimmedIsFixed(request, IsSpace);
    assert ListedIDs([]) == [];
    assert FormatUint(0) == "0";
    ParseFormat(0);
  }

  /** A completion is not idempotent: every delivery adds an assistant message. */
  lemma {:induction false} EveryCompletionAddsAMessage(
    s: State, completed: Finished, replyTo: seq<string>, requestID: string, seqNo: nat, now: int)
    requires Fresh(s)
    ensures var t := Deliver(s, StateEvent(RunCompleted(Some(completed)), replyTo, requestID, seqNo, now));
      && t.messages.Keys == s.messages.Keys + {s.nextID}
      && t.messages[s.nextID].role == Assistant && |t.messages| == |s.messages| + 1
  {
    var t := Deliver(s, StateEvent(RunCompleted(Some(completed)), replyTo, requestID, seqNo, now));
    assert t.messages.Keys == s.messages.Keys + {s.nextID};
    assert |t.messages.Keys| == |s.messages.Keys| + 1;
  }

  // The accesses of a stamping transaction to one row, and a completion.
  datatype Access = Read | Save | Complete(event: Delivery)

  // The messages, and the row as the stamping transaction has read it.
  datatype Stamping = Stamping(state: State, held: Option<Message>)

  function Perform(s: Stamping, id: nat, streamSeq: nat, now: int, access: Access): Stamping {
    match access
    case Read => s.(held := if id in s.state.messages then Some(s.state.messages[id]) else None)
    case Save =>
      if s.held == None || s.held.value.status != Processing || StoredSeq(s.held.value.streamStart).Some? then s
      else
        var stamped := s.held.value.(streamStart := Some(streamSeq), updatedAt := now);
        s.(state := s.state.(messages := s.state.messages[id := stamped]))
    case Complete(event) => s.(state := Deliver(s.state, event))
  }

  function PerformAll(s: Stamping, id: nat, streamSeq: nat, now: int, accesses: seq<Access>): Stamping {
    if accesses == [] then s
    else
      var n := |accesses| - 1;
      Perform(PerformAll(s, id, streamSeq, now, accesses[..n]), id, streamSeq, now, accesses[n])
  }

  lemma {:induction false} ThreeAccesses(
    s: Stamping, id: nat, streamSeq: nat, now: int, a: Access, b: Access, c: Access)
    ensures PerformAll(s, id, streamSeq, now, [a, b, c]) ==
      Perform(Perform(Perform(s, id, streamSeq, now, a), id, streamSeq, now, b), id, streamSeq, now, c)
  {
    assert [a, b, c][..2] == [a, b] && [a, b][..1] == [a] && [a][..0] == [];
    assert PerformAll(s, id, streamSeq, now, [a]) == Perform(s, id, streamSeq, now, a);
    assert PerformAll(s, id, streamSeq, now, [a, b]) ==
      Perform(Perform(s, id, streamSeq, now, a), id, streamSeq, now, b);
  }

  // The status of row `id` after these accesses to a row not read before.
  function StatusAfter(s: State, id: nat, streamSeq: nat, now: int, accesses: seq<Access>): Option<Status> {
    var t := PerformAll(Stamping(s, None), id, streamSeq, now, accesses).state;
    if id in t.messages then Some(t.messages[id].status) else None
  }

  /** Why transactions on a message must be serialised: in either order the stamp
      and the completion leave it completed, but overlapping they put a finished
      message back to processing. */
  lemma {:induction false} StaleStampUndoesCompletion(
    s: State, id: nat, completed: Finished, replyTo: seq<string>, streamSeq: nat, now: int)
    requires Inv(s) && id in s.messages && id in ListedIDs(replyTo)
    requires Recent(s.messages[id], now - PROCESSING_WINDOW) && StoredSeq(s.messages[id].streamStart) == None
    ensures
      var complete := Complete(StateEvent(RunCompleted(Some(completed)), replyTo, "", 1, now));
      && StatusAfter(s, id, streamSeq, now, [Read, Save, complete]) == Some(Completed)
      && StatusAfter(s, id, streamSeq, now, [complete, Read, Save]) == Some(Completed)
      && StatusAfter(s, id, streamSeq, now, [Read, complete, Save]) == Some(Processing)
  {
    var ending := Ending(Completed, completed.message, "");
    var event := StateEvent(RunCompleted(Some(completed)), replyTo, "", 1, now);
    var begun := Stamping(s, None);
    ThreeAccesses(begun, id, streamSeq, now, Read, Save, Complete(event));
    ThreeAccesses(begun, id, streamSeq, now, Complete(event), Read, Save);
    ThreeAccesses(begun, id, streamSeq, now, Read, Complete(event), Save);
    CloseRow(s, ending, replyTo, now, id);
    var stamped := s.messages[id].(streamStart := Some(streamSeq), updatedAt := now);
    CloseRow(s.(messages := s.messages[id := stamped]), ending, replyTo, now, id);
  }
}
