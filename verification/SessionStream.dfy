/**
 Streaming a session to a client: where replay starts in the log, and how the
 run.stream and run.state lanes are merged into one stream of events.
 */
module SessionStream {
  import opened Common
  import opened Events
  import opened SessionViews
  import opened Text
  import SM = SessionMessages

  // ------------------------------------------------------------ replay start

  const MAX_INT64: nat := 0x7FFF_FFFF_FFFF_FFFF

  datatype ReplayState = ReplayState(streamStart: nat, stateStart: nat, messageIDs: set<string>)

  // `start` is the least positive sequence stored, or 0 if there is none.
  ghost predicate IsLeastStart(start: nat, stored: set<nat>) {
    && (start == 0 <==> forall s :: s in stored ==> s == 0)
    && (start > 0 ==> start in stored && forall s :: s in stored && s > 0 ==> start <= s)
  }

  function StateStarts(t: SM.Table, ids: set<nat>): set<nat> {
    set id | id in ids && id in t && t[id].stateStart.Some? :: t[id].stateStart.value
  }

  function StreamStarts(t: SM.Table, ids: set<nat>): set<nat> {
    set id | id in ids && id in t && t[id].streamStart.Some? :: t[id].streamStart.value
  }

  function RecentIDs(t: SM.Table, since: int): set<nat> {
    set id | id in t && SM.Recent(t[id], since)
  }

  function IDTexts(ids: set<nat>): set<string> {
    set id | id in ids :: FormatUint(id)
  }

  // The smaller of a start so far and one more stored sequence.
  function Lower(start: nat, o: Option<nat>): nat {
    var v := SM.StoredSeq(o);
    if v.Some? && (start == 0 || v.value < start) then v.value else start
  }

  function AsSet(o: Option<nat>): set<nat> {
    match o
    case Some(v) => {v}
    case None => {}
  }

  lemma {:induction false} LowerIsLeast(start: nat, stored: set<nat>, o: Option<nat>)
    requires IsLeastStart(start, stored)
    ensures IsLeastStart(Lower(start, o), stored + AsSet(o))
  {
  }

  lemma {:induction false} OneMoreID(t: SM.Table, ids: set<nat>, id: nat)
    requires id in t
    ensures StateStarts(t, ids + {id}) == StateStarts(t, ids) + AsSet(t[id].stateStart)
    ensures StreamStarts(t, ids + {id}) == StreamStarts(t, ids) + AsSet(t[id].streamStart)
    ensures IDTexts(ids + {id}) == IDTexts(ids) + {FormatUint(id)}
  {
  }

  // The replay state of some of the messages.
  ghost predicate ReplayOf(t: SM.Table, ids: set<nat>, r: ReplayState) {
    && IsLeastStart(r.stateStart, StateStarts(t, ids))
    && IsLeastStart(r.streamStart, StreamStarts(t, ids))
    && r.messageIDs == IDTexts(ids)
  }

  lemma {:induction false} ReplayStep(t: SM.Table, ids: set<nat>, id: nat, r: ReplayState)
    requires id in t && ReplayOf(t, ids, r)
    ensures ReplayOf(t, ids + {id},
      ReplayState(Lower(r.streamStart, t[id].streamStart), Lower(r.stateStart, t[id].stateStart),
                  r.messageIDs + {FormatUint(id)}))
  {
    OneMoreID(t, ids, id);
    LowerIsLeast(r.stateStart, StateStarts(t, ids), t[id].stateStart);
    LowerIsLeast(r.streamStart, StreamStarts(t, ids), t[id].streamStart);
  }

  method GetReplayState(t: SM.Table, since: int) returns (r: ReplayState)
    ensures ReplayOf(t, RecentIDs(t, since), r)
  {
    var todo := RecentIDs(t, since);
    ghost var all := todo;
    r := ReplayState(0, 0, {});
    assert all - todo == {};
    while todo != {}
      invariant todo <= all <= t.Keys
      invariant ReplayOf(t, all - todo, r)
      decreases |todo|
    {
      var id :| id in todo;
      ghost var before := all - todo;
      ReplayStep(t, before, id, r);
      todo := todo - {id};
      assert all - todo == before + {id};
      var m := t[id];
      r := r.(messageIDs := r.messageIDs + {FormatUint(id)});
      var streamSeq := SM.StoredSeq(m.streamStart);
      if streamSeq.Some? && (r.streamStart == 0 || streamSeq.value < r.streamStart) {
        r := r.(streamStart := streamSeq.value);
      }
      var stateSeq := SM.StoredSeq(m.stateStart);
      if stateSeq.Some? && (r.stateStart == 0 || stateSeq.value < r.stateStart) {
        r := r.(stateStart := stateSeq.value);
      }
    }
    assert all - todo == all;
  }

  // Position 0 subscribes to new messages only.
  function StartPosition(r: ReplayState): nat {
    if 0 < r.stateStart <= MAX_INT64 then r.stateStart else 0
  }

  function After(ds: seq<SM.Delivery>): SM.Table {
    SM.DeliverAll(SM.EMPTY, ds).messages
  }

  // The user messages that are still being answered.
  function ProcessingIDs(t: SM.Table): set<nat> {
    set id | id in t && t[id].role == SM.User && t[id].status == SM.Processing
  }

  // Replay asks for this message, from no later than the start of its run.
  predicate Replays(r: ReplayState, id: nat, m: SM.Message) {
    && FormatUint(id) in r.messageIDs
    && m.stateStart.Some? && 0 < StartPosition(r) <= m.stateStart.value
  }

  lemma {:induction false} ProcessingHasStart(ds: seq<SM.Delivery>, id: nat)
    requires id in ProcessingIDs(After(ds))
    ensures After(ds)[id].stateStart.Some? && After(ds)[id].stateStart.value > 0
  {
    SM.DeliveriesPreserve(SM.EMPTY, ds);
    assert SM.RowOK(After(ds)[id]);
  }

  lemma {:induction false} FormatsApart(id: nat, ids: set<nat>)
    ensures FormatUint(id) in IDTexts(ids) <==> id in ids
  {
    if other :| other in ids && FormatUint(other) == FormatUint(id) {
      FormatValue(other);
      FormatValue(id);
    }
  }

  // Every start among the recent messages is positive, so the least is one of them.
  lemma {:induction false} LeastOfRecent(ds: seq<SM.Delivery>, since: int, r: ReplayState)
    requires ReplayOf(After(ds), RecentIDs(After(ds), since), r)
    ensures r.stateStart == 0 <==> RecentIDs(After(ds), since) == {}
    ensures forall j :: j in RecentIDs(After(ds), since) ==>
      After(ds)[j].stateStart.Some? && 0 < r.stateStart <= After(ds)[j].stateStart.value
    ensures r.stateStart > 0 ==>
      exists j :: j in RecentIDs(After(ds), since) && After(ds)[j].stateStart == Some(r.stateStart)
  {
    var t := After(ds);
    forall j | j in RecentIDs(t, since)
      ensures t[j].stateStart.Some? && 0 < r.stateStart <= t[j].stateStart.value
    {
      ProcessingHasStart(ds, j);
      assert t[j].stateStart.value in StateStarts(t, RecentIDs(t, since));
    }
    if j :| j in RecentIDs(t, since) {
      assert r.stateStart > 0;
    }
  }

  /** Where replay starts covers a message being answered exactly when some
      message updated within the window has a run that starts no later. */
  lemma {:induction false} StartCovers(ds: seq<SM.Delivery>, since: int, r: ReplayState, id: nat)
    requires ReplayOf(After(ds), RecentIDs(After(ds), since), r) && id in ProcessingIDs(After(ds))
    ensures
      var (t, recent) := (After(ds), RecentIDs(After(ds), since));
      && t[id].stateStart.Some?
      && (0 < StartPosition(r) <= t[id].stateStart.value <==>
        && r.stateStart <= MAX_INT64
        && exists j :: j in recent && t[j].stateStart.Some? && t[j].stateStart.value <= t[id].stateStart.value)
  {
    ProcessingHasStart(ds, id);
    LeastOfRecent(ds, since, r);
  }

  /** Replay covers a message being answered exactly when that message was updated
      within the window (and the log position fits the subscription's integer). */
  lemma {:induction false} ReplayedExactly(ds: seq<SM.Delivery>, since: int, r: ReplayState, id: nat)
    requires ReplayOf(After(ds), RecentIDs(After(ds), since), r) && id in ProcessingIDs(After(ds))
    ensures Replays(r, id, After(ds)[id]) <==> SM.Recent(After(ds)[id], since) && r.stateStart <= MAX_INT64
  {
    LeastOfRecent(ds, since, r);
    FormatsApart(id, RecentIDs(After(ds), since));
  }

  /** So replay covers every message being answered exactly when each of them was
      updated within the window, and the position fits. */
  lemma {:induction false} ReplayCoversEveryRun(ds: seq<SM.Delivery>, since: int, r: ReplayState)
    requires ReplayOf(After(ds), RecentIDs(After(ds), since), r)
    ensures
      (forall id :: id in ProcessingIDs(After(ds)) ==> Replays(r, id, After(ds)[id])) <==>
      (forall id :: id in ProcessingIDs(After(ds)) ==>
         SM.Recent(After(ds)[id], since) && r.stateStart <= MAX_INT64)
  {
    forall id | id in ProcessingIDs(After(ds))
      ensures Replays(r, id, After(ds)[id]) <==> SM.Recent(After(ds)[id], since) && r.stateStart <= MAX_INT64
    {
      ReplayedExactly(ds, since, r, id);
    }
  }

  lemma {:induction false} AnswersTo(id: nat)
    requires 0 < id < UINT64_LIMIT
    ensures SM.ReplyIDs([FormatUint(id)], "") == [id]
  {
    ParseFormat(id);
    var raws := [FormatUint(id)];
    assert SM.ParsedIDs(raws)[0] == Some(id);
    SM.DistinctIsIdentity([id], SM.ParsedIDs(raws));
  }

  function StartedBy(id: nat, streamSeq: nat, now: int): SM.Delivery {
    SM.StateEvent(SM.RunStarted, [FormatUint(id)], "", streamSeq, now)
  }

  lemma {:induction false} StartOne(s: SM.State, id: nat, streamSeq: nat, now: int)
    requires 0 < id < UINT64_LIMIT && id in s.messages && streamSeq > 0
    requires s.messages[id].role == SM.User && s.messages[id].status == SM.Pending
    ensures
      var started := s.messages[id].(status := SM.Processing, stateStart := Some(streamSeq), updatedAt := now);
      SM.Deliver(s, StartedBy(id, streamSeq, now)) == s.(messages := s.messages[id := started])
  {
    AnswersTo(id);
  }

  lemma {:induction false} FourDeliveries(s: SM.State, a: SM.Delivery, b: SM.Delivery, c: SM.Delivery, d: SM.Delivery)
    ensures SM.DeliverAll(s, [a, b, c, d]) == SM.Deliver(SM.Deliver(SM.Deliver(SM.Deliver(s, a), b), c), d)
  {
    assert [a, b, c, d][1..] == [b, c, d];
    assert [b, c, d][1..] == [c, d];
    assert [c, d][1..] == [d];
    var s1 := SM.Deliver(s, a);
    var s2 := SM.Deliver(s1, b);
    var s3 := SM.Deliver(s2, c);
    assert SM.DeliverAll(s3, [d]) == SM.Deliver(s3, d);
    assert SM.DeliverAll(s2, [c, d]) == SM.DeliverAll(s3, [d]);
    assert SM.DeliverAll(s1, [b, c, d]) == SM.DeliverAll(s2, [c, d]);
  }

  // Two messages, and the starts of their runs in the log, the second one `later`.
  function TwoRuns(content: string, first: nat, second: nat, later: int): seq<SM.Delivery> {
    [SM.Post(content, 0), SM.Post(content, 0), StartedBy(1, first, 0), StartedBy(2, second, later)]
  }

  function Answering(content: string, start: nat, now: int): SM.Message {
    SM.Message(SM.User, SM.Processing, content, "", Some(start), None, now)
  }

  lemma {:induction false} TwoRunsAnswering(content: string, first: nat, second: nat, later: int)
    requires 0 < first && 0 < second
    ensures After(TwoRuns(content, first, second, later)) ==
      map[1 := Answering(content, first, 0), 2 := Answering(content, second, later)]
  {
    var ds := TwoRuns(content, first, second, later);
    var s2 := SM.Deliver(SM.Deliver(SM.EMPTY, ds[0]), ds[1]);
    StartOne(s2, 1, first, 0);
    var s3 := SM.Deliver(s2, ds[2]);
    StartOne(s3, 2, second, later);
    FourDeliveries(SM.EMPTY, ds[0], ds[1], ds[2], ds[3]);
  }

  /** Runs begin at 5 and, three thousand seconds later, at 9. The first message is
      still being answered, but replay starts after its run and does not ask for it. */
  lemma {:induction false} StaleRunIsMissed(content: string, r: ReplayState)
    requires
      var t := After(TwoRuns(content, 5, 9, 3_000_000));
      ReplayOf(t, RecentIDs(t, 3_000_000 - SM.PROCESSING_WINDOW), r)
    ensures
      var t := After(TwoRuns(content, 5, 9, 3_000_000));
      && 1 in ProcessingIDs(t) && t[1].stateStart == Some(5)
      && StartPosition(r) == 9 && r.messageIDs == {FormatUint(2)} && !Replays(r, 1, t[1])
  {
    TwoRunsAnswering(content, 5, 9, 3_000_000);
    var t := After(TwoRuns(content, 5, 9, 3_000_000));
    assert RecentIDs(t, 3_000_000 - SM.PROCESSING_WINDOW) == {2};
    assert StateStarts(t, {2}) == {9};
  }

  // ------------------------------------------------------------ one event

  datatype LaneEvent = LaneEvent(wire: Wire, replyTo: seq<string>)

  datatype Client = Client(replay: bool, ids: set<string>)

  predicate MatchesReplyIDs(e: LaneEvent, ids: set<string>) {
    exists id :: id in e.replyTo && id in ids
  }

  // The event is numbered and answers the messages being replayed.
  predicate Admitted(c: Client, e: LaneEvent) {
    e.wire.seqNo != 0 && (c.replay ==> MatchesReplyIDs(e, c.ids))
  }

  /** With no recent message a replaying client subscribes to new events only and
      is then sent none of them. */
  lemma {:induction false} NothingRecentNothingSent(ds: seq<SM.Delivery>, since: int, r: ReplayState, e: LaneEvent)
    requires ReplayOf(After(ds), RecentIDs(After(ds), since), r) && RecentIDs(After(ds), since) == {}
    ensures StartPosition(r) == 0 && !Admitted(Client(true, r.messageIDs), e)
  {
    LeastOfRecent(ds, since, r);
  }

  predicate Wanted(c: Client, e: LaneEvent) {
    Admitted(c, e) && ProjectRunEvent(e.wire).Some?
  }

  predicate Closes(e: LaneEvent) {
    IsTerminal(e.wire.kind)
  }

  // What handling one event does to the numbers seen and the views sent.
  ghost predicate Emits(
    c: Client, e: LaneEvent, seen: set<int>, sent: seq<View>, seen': set<int>, sent': seq<View>)
  {
    && seen' == seen + (if Admitted(c, e) then {e.wire.seqNo} else {})
    && sent' == sent + (if Wanted(c, e) && e.wire.seqNo !in seen then [ProjectRunEvent(e.wire).value] else [])
  }

  // Handling the event sends a terminal.
  predicate Ends(c: Client, e: LaneEvent, seen: set<int>) {
    Wanted(c, e) && e.wire.seqNo !in seen && Closes(e)
  }

  class RunEventDedup {
    var highest: int
    var seen: set<int>

    constructor ()
      ensures seen == {} && highest == 0
    {
      highest, seen := 0, {};
    }

    method Mark(seqNo: int) returns (first: bool)
      modifies this
      ensures first <==> seqNo !in old(seen)
      ensures seen == old(seen) + {seqNo}
      ensures highest == if first && seqNo > old(highest) then seqNo else old(highest)
    {
      if seqNo in seen { return false; }
      seen := seen + {seqNo};
      if seqNo > highest {
        highest := seqNo;
      }
      return true;
    }
  }

  /** The handler of one subscription, one message at a time. */
  class SessionSink {
    const client: Client
    const dedup: RunEventDedup
    var sent: seq<View>
    var closed: bool

    constructor (client: Client)
      ensures this.client == client && fresh(dedup) && dedup.seen == {} && sent == [] && !closed
    {
      this.client := client;
      dedup := new RunEventDedup();
      sent, closed := [], false;
    }

    /** Sends the event's projection unless it is unnumbered, answers somebody
        else, was seen before, or has none; a terminal closes the stream. */
    method EmitEvent(e: LaneEvent)
      modifies this, dedup
      ensures Emits(client, e, old(dedup.seen), old(sent), dedup.seen, sent)
      ensures closed == (old(closed) || Ends(client, e, old(dedup.seen)))
    {
      if e.wire.seqNo == 0 { return; }
      if client.replay && !MatchesReplyIDs(e, client.ids) { return; }
      var first := dedup.Mark(e.wire.seqNo);
      if !first { return; }
      var view := ProjectRunEvent(e.wire);
      if view == None { return; }
      sent := sent + [view.value];
      if view.value.kind.Completed? || view.value.kind.Failed? || view.value.kind.Cancelled? {
        closed := true;
      }
    }
  }

  /** Which events close the stream: a completed, failed or cancelled run's, if it is
      numbered, answers the client and was not seen before. */
  lemma {:induction false} EndsExactly(c: Client, e: LaneEvent, seen: set<int>)
    ensures Ends(c, e, seen) <==>
      && (e.wire.kind == RunCompleted || e.wire.kind == RunFailed || e.wire.kind == RunCancelled)
      && e.wire.seqNo != 0 && e.wire.seqNo !in seen
      && (c.replay ==> exists id :: id in e.replyTo && id in c.ids)
  {
  }

  // ---------------------------------------------------------- two lanes at once

  datatype Lane = Stream | State

  function Other(l: Lane): Lane {
    if l.Stream? then State else Stream
  }

  datatype Lanes = Lanes(stream: seq<LaneEvent>, state: seq<LaneEvent>)

  function OnLane(lanes: Lanes, lane: Lane): seq<LaneEvent> {
    if lane.Stream? then lanes.stream else lanes.state
  }

  /** Each lane delivers its own events in order; a handler marks an event and
      only later, outside the lock, sends it. The first terminal sent, or a client
      that leaves, closes the stream; each subscription then ends when it gets to
      it, and what its lane has not delivered by then is dropped. */
  datatype Merge = Merge(
    streamTaken: nat,
    stateTaken: nat,
    holding: map<Lane, LaneEvent>,
    seen: set<int>,
    sent: seq<(Lane, LaneEvent)>,
    closing: bool,
    cut: set<Lane>)

  datatype Step = Take(lane: Lane) | Send(lane: Lane) | Leave | Cut(lane: Lane)

  const BEGIN := Merge(0, 0, map[], {}, [], false, {})

  function Taken(m: Merge, l: Lane): nat {
    if l.Stream? then m.streamTaken else m.stateTaken
  }

  function Advance(m: Merge, l: Lane): Merge {
    if l.Stream? then m.(streamTaken := m.streamTaken + 1) else m.(stateTaken := m.stateTaken + 1)
  }

  ghost predicate Shape(m: Merge, lanes: Lanes) {
    m.streamTaken <= |lanes.stream| && m.stateTaken <= |lanes.state|
  }

  ghost predicate Enabled(m: Merge, lanes: Lanes, step: Step) {
    && Shape(m, lanes)
    && match step
       case Take(l) => l !in m.cut && l !in m.holding && Taken(m, l) < |OnLane(lanes, l)|
       case Send(l) => l in m.holding
       case Leave => true
       case Cut(l) => m.closing && l !in m.cut
  }

  function Apply(c: Client, m: Merge, lanes: Lanes, step: Step): Merge
    requires Enabled(m, lanes, step)
  {
    match step
    case Take(l) =>
      var e := OnLane(lanes, l)[Taken(m, l)];
      var n := Advance(m, l);
      if !Admitted(c, e) || e.wire.seqNo in m.seen then n
      else n.(seen := m.seen + {e.wire.seqNo},
              holding := if Wanted(c, e) then m.holding[l := e] else m.holding)
    case Send(l) =>
      m.(holding := m.holding - {l}, sent := m.sent + [(l, m.holding[l])],
         closing := m.closing || Closes(m.holding[l]))
    case Leave => m.(closing := true)
    case Cut(l) => m.(cut := m.cut + {l})
  }

  ghost predicate Runs(c: Client, m: Merge, lanes: Lanes, steps: seq<Step>, n: Merge)
    decreases |steps|
  {
    if steps == [] then m == n
    else Enabled(m, lanes, steps[0]) && Runs(c, Apply(c, m, lanes, steps[0]), lanes, steps[1..], n)
  }

  // The wanted events of a lane, in order.
  function Keep(c: Client, events: seq<LaneEvent>): seq<LaneEvent> {
    if events == [] then []
    else
      var n := |events| - 1;
      Keep(c, events[..n]) + if Wanted(c, events[n]) then [events[n]] else []
  }

  // What a lane contributed to the merged stream, in order.
  function From(l: Lane, sent: seq<(Lane, LaneEvent)>): seq<LaneEvent> {
    if sent == [] then []
    else
      var n := |sent| - 1;
      From(l, sent[..n]) + if sent[n].0 == l then [sent[n].1] else []
  }

  function Held(m: Merge, l: Lane): seq<LaneEvent> {
    if l in m.holding then [m.holding[l]] else []
  }

  // No two events for the client share a number. Each run numbers its own events
  // from one, so this holds when one run answers all that is asked for.
  predicate DistinctNumbers(c: Client, lanes: Lanes) {
    forall k, i, l, j ::
      && 0 <= i < |OnLane(lanes, k)| && Admitted(c, OnLane(lanes, k)[i])
      && 0 <= j < |OnLane(lanes, l)| && Admitted(c, OnLane(lanes, l)[j])
      && (k != l || i != j)
      ==> OnLane(lanes, k)[i].wire.seqNo != OnLane(lanes, l)[j].wire.seqNo
  }

  // Only numbers of events already taken were seen.
  ghost predicate SeenWereTaken(c: Client, m: Merge, lanes: Lanes)
    requires Shape(m, lanes)
  {
    forall s :: s in m.seen ==>
      exists l, k :: 0 <= k < Taken(m, l) && Admitted(c, OnLane(lanes, l)[k]) && OnLane(lanes, l)[k].wire.seqNo == s
  }

  ghost predicate LaneInOrder(c: Client, m: Merge, lanes: Lanes, l: Lane)
    requires Shape(m, lanes)
  {
    From(l, m.sent) + Held(m, l) == Keep(c, OnLane(lanes, l)[..Taken(m, l)])
  }

  ghost predicate Inv(c: Client, m: Merge, lanes: Lanes) {
    Shape(m, lanes) && SeenWereTaken(c, m, lanes) && LaneInOrder(c, m, lanes, Stream) && LaneInOrder(c, m, lanes, State)
  }

  lemma {:induction false} FromGrows(l: Lane, sent: seq<(Lane, LaneEvent)>, x: (Lane, LaneEvent))
    ensures From(l, sent + [x]) == From(l, sent) + if x.0 == l then [x.1] else []
  {
    assert (sent + [x])[..|sent|] == sent;
  }

  lemma {:induction false} KeepGrows(c: Client, events: seq<LaneEvent>, k: nat)
    requires k < |events|
    ensures Keep(c, events[..k + 1]) == Keep(c, events[..k]) + if Wanted(c, events[k]) then [events[k]] else []
  {
    assert events[..k + 1][..k] == events[..k];
  }

  lemma {:induction false} NextIsNew(c: Client, m: Merge, lanes: Lanes, l: Lane)
    requires Shape(m, lanes) && SeenWereTaken(c, m, lanes) && DistinctNumbers(c, lanes)
    requires Taken(m, l) < |OnLane(lanes, l)| && Admitted(c, OnLane(lanes, l)[Taken(m, l)])
    ensures OnLane(lanes, l)[Taken(m, l)].wire.seqNo !in m.seen
  {
  }

  lemma {:induction false} SeenStaysTaken(c: Client, m: Merge, lanes: Lanes, l: Lane)
    requires Shape(m, lanes) && SeenWereTaken(c, m, lanes) && Enabled(m, lanes, Take(l))
    ensures SeenWereTaken(c, Apply(c, m, lanes, Take(l)), lanes)
  {
    var n := Apply(c, m, lanes, Take(l));
    forall s | s in n.seen
      ensures exists l, k ::
        0 <= k < Taken(n, l) && Admitted(c, OnLane(lanes, l)[k]) && OnLane(lanes, l)[k].wire.seqNo == s
    {
      if s in m.seen {
        var k, i :|
          0 <= i < Taken(m, k) && Admitted(c, OnLane(lanes, k)[i]) && OnLane(lanes, k)[i].wire.seqNo == s;
        assert i < Taken(n, k);
      } else {
        assert OnLane(lanes, l)[Taken(m, l)].wire.seqNo == s && Taken(m, l) < Taken(n, l);
      }
    }
  }

  lemma {:induction false} TakeKeepsLane(c: Client, m: Merge, lanes: Lanes, l: Lane, k: Lane)
    requires Enabled(m, lanes, Take(l)) && LaneInOrder(c, m, lanes, k)
    requires
      var e := OnLane(lanes, l)[Taken(m, l)];
      Admitted(c, e) ==> e.wire.seqNo !in m.seen
    ensures LaneInOrder(c, Apply(c, m, lanes, Take(l)), lanes, k)
  {
    if k == l {
      KeepGrows(c, OnLane(lanes, l), Taken(m, l));
      assert From(l, m.sent) + [] == From(l, m.sent);
    }
  }

  lemma {:induction false} TakeStep(c: Client, m: Merge, lanes: Lanes, l: Lane)
    requires Inv(c, m, lanes) && DistinctNumbers(c, lanes) && Enabled(m, lanes, Take(l))
    ensures Inv(c, Apply(c, m, lanes, Take(l)), lanes)
  {
    SeenStaysTaken(c, m, lanes, l);
    if Admitted(c, OnLane(lanes, l)[Taken(m, l)]) {
      NextIsNew(c, m, lanes, l);
    }
    TakeKeepsLane(c, m, lanes, l, Stream);
    TakeKeepsLane(c, m, lanes, l, State);
  }

  lemma {:induction false} SendKeepsLane(c: Client, m: Merge, lanes: Lanes, l: Lane, k: Lane)
    requires Enabled(m, lanes, Send(l)) && LaneInOrder(c, m, lanes, k)
    ensures LaneInOrder(c, Apply(c, m, lanes, Send(l)), lanes, k)
  {
    FromGrows(k, m.sent, (l, m.holding[l]));
  }

  lemma {:induction false} SendStep(c: Client, m: Merge, lanes: Lanes, l: Lane)
    requires Inv(c, m, lanes) && Enabled(m, lanes, Send(l))
    ensures Inv(c, Apply(c, m, lanes, Send(l)), lanes)
  {
    SendKeepsLane(c, m, lanes, l, Stream);
    SendKeepsLane(c, m, lanes, l, State);
  }

  lemma {:induction false} InvRuns(c: Client, m: Merge, lanes: Lanes, steps: seq<Step>, n: Merge)
    requires Inv(c, m, lanes) && DistinctNumbers(c, lanes) && Runs(c, m, lanes, steps, n)
    ensures Inv(c, n, lanes)
    decreases |steps|
  {
    if steps != [] {
      match steps[0] {
        case Take(l) => TakeStep(c, m, lanes, l);
        case Send(l) => SendStep(c, m, lanes, l);
        case _ =>
      }
      InvRuns(c, Apply(c, m, lanes, steps[0]), lanes, steps[1..], n);
    }
  }

  /** However the lanes of one run interleave, and whenever the stream closes: what
      each lane sent, and the event its handler still holds, are exactly the wanted
      events it delivered, in its order. */
  lemma {:induction false} LanesMergeFaithfully(c: Client, lanes: Lanes, steps: seq<Step>, n: Merge, l: Lane)
    requires DistinctNumbers(c, lanes) && Runs(c, BEGIN, lanes, steps, n)
    ensures Shape(n, lanes)
    ensures From(l, n.sent) + Held(n, l) == Keep(c, OnLane(lanes, l)[..Taken(n, l)])
  {
    InvRuns(c, BEGIN, lanes, steps, n);
  }

  // Both subscriptions have ended and both handlers are done.
  predicate Over(m: Merge) {
    m.closing && m.cut == {Stream, State} && m.holding == map[]
  }

  // A subscription that has ended delivers no more.
  lemma {:induction false} CutIsFinal(c: Client, m: Merge, lanes: Lanes, steps: seq<Step>, n: Merge, l: Lane)
    requires Runs(c, m, lanes, steps, n) && l in m.cut
    ensures l in n.cut && Taken(n, l) == Taken(m, l)
    decreases |steps|
  {
    if steps != [] {
      CutIsFinal(c, Apply(c, m, lanes, steps[0]), lanes, steps[1..], n, l);
    }
  }

  lemma {:induction false} OverStays(c: Client, m: Merge, lanes: Lanes, step: Step)
    requires Over(m) && Enabled(m, lanes, step)
    ensures Over(Apply(c, m, lanes, step)) && Apply(c, m, lanes, step).sent == m.sent
  {
    match step
    case Take(Stream) =>
    case Take(State) =>
    case Cut(Stream) =>
    case Cut(State) =>
    case _ =>
  }

  lemma {:induction false} OverIsFinal(c: Client, m: Merge, lanes: Lanes, steps: seq<Step>, n: Merge)
    requires Runs(c, m, lanes, steps, n) && Over(m)
    ensures Over(n) && n.sent == m.sent
    decreases |steps|
  {
    if steps != [] {
      OverStays(c, m, lanes, steps[0]);
      OverIsFinal(c, Apply(c, m, lanes, steps[0]), lanes, steps[1..], n);
    }
  }

  /** What has reached the client when the stream is over: of each lane the wanted
      events up to where its subscription ended, and nothing after. */
  lemma {:induction false} AtTheClose(
    c: Client, lanes: Lanes, steps: seq<Step>, m: Merge, more: seq<Step>, n: Merge, l: Lane)
    requires DistinctNumbers(c, lanes) && Runs(c, BEGIN, lanes, steps, m) && Over(m) && Runs(c, m, lanes, more, n)
    ensures Shape(m, lanes) && n.sent == m.sent
    ensures From(l, m.sent) == Keep(c, OnLane(lanes, l)[..Taken(m, l)])
  {
    LanesMergeFaithfully(c, lanes, steps, m, l);
    assert From(l, m.sent) + [] == From(l, m.sent);
    OverIsFinal(c, m, lanes, more, n);
  }

  lemma {:induction false} OneStep(c: Client, m: Merge, lanes: Lanes, step: Step)
    requires Enabled(m, lanes, step)
    ensures Runs(c, m, lanes, [step], Apply(c, m, lanes, step))
  {
    assert [step][1..] == [];
  }

  lemma {:induction false} RunsOn(
    c: Client, lanes: Lanes, m: Merge, a: seq<Step>, n: Merge, b: seq<Step>, o: Merge)
    requires Runs(c, m, lanes, a, n) && Runs(c, n, lanes, b, o)
    ensures Runs(c, m, lanes, a + b, o)
    decreases |a|
  {
    if a == [] {
      assert a + b == b;
    } else {
      RunsOn(c, lanes, Apply(c, m, lanes, a[0]), a[1..], n, b, o);
      assert (a + b)[1..] == a[1..] + b;
    }
  }

  /** A terminal may overtake: it is sent, the stream closes, and a delta that its
      own lane had not delivered yet never reaches the client. */
  lemma {:induction false} TerminalOvertakes(c: Client, delta: LaneEvent, terminal: LaneEvent)
    returns (steps: seq<Step>, n: Merge)
    requires Wanted(c, terminal) && Closes(terminal)
    ensures Runs(c, BEGIN, Lanes([delta], [terminal]), steps, n)
    ensures Over(n) && n.sent == [(State, terminal)] && Taken(n, Stream) == 0
  {
    var lanes := Lanes([delta], [terminal]);
    var a := Apply(c, BEGIN, lanes, Take(State));
    var b := Apply(c, a, lanes, Send(State));
    var d := Apply(c, b, lanes, Cut(Stream));
    n := Apply(c, d, lanes, Cut(State));
    assert b.holding == map[];
    OneStep(c, BEGIN, lanes, Take(State));
    OneStep(c, a, lanes, Send(State));
    OneStep(c, b, lanes, Cut(Stream));
    OneStep(c, d, lanes, Cut(State));
    RunsOn(c, lanes, BEGIN, [Take(State)], a, [Send(State)], b);
    RunsOn(c, lanes, b, [Cut(Stream)], d, [Cut(State)], n);
    steps := [Take(State)] + [Send(State)] + ([Cut(Stream)] + [Cut(State)]);
    RunsOn(c, lanes, BEGIN, [Take(State)] + [Send(State)], b, [Cut(Stream)] + [Cut(State)], n);
  }

  // ---------------------------------------------- once each, in any case

  function Number(x: (Lane, LaneEvent)): int {
    x.1.wire.seqNo
  }

  predicate SentNumbers(m: Merge) {
    && (forall i, j :: 0 <= i < j < |m.sent| ==> Number(m.sent[i]) != Number(m.sent[j]))
    && (forall i :: 0 <= i < |m.sent| ==> Number(m.sent[i]) in m.seen)
  }

  predicate HeldNumbers(m: Merge) {
    && (forall l :: l in m.holding ==> m.holding[l].wire.seqNo in m.seen)
    && (forall i, l :: 0 <= i < |m.sent| && l in m.holding ==> Number(m.sent[i]) != m.holding[l].wire.seqNo)
    && (forall k, l :: k in m.holding && l in m.holding && k != l ==>
          m.holding[k].wire.seqNo != m.holding[l].wire.seqNo)
  }

  predicate SentOnce(m: Merge) {
    SentNumbers(m) && HeldNumbers(m)
  }

  lemma {:induction false} HoldsOneMore(m: Merge, n: Merge, l: Lane, e: LaneEvent)
    requires SentOnce(m) && l !in m.holding && e.wire.seqNo !in m.seen
    requires n.sent == m.sent && n.seen == m.seen + {e.wire.seqNo} && n.holding == m.holding[l := e]
    ensures SentOnce(n)
  {
  }

  lemma {:induction false} TakeSendsOnce(c: Client, m: Merge, lanes: Lanes, l: Lane)
    requires SentOnce(m) && Enabled(m, lanes, Take(l))
    ensures SentOnce(Apply(c, m, lanes, Take(l)))
  {
    var n, e := Apply(c, m, lanes, Take(l)), OnLane(lanes, l)[Taken(m, l)];
    if l in n.holding {
      HoldsOneMore(m, n, l, e);
    }
  }

  lemma {:induction false} SendSendsOnce(c: Client, m: Merge, lanes: Lanes, l: Lane)
    requires SentOnce(m) && Enabled(m, lanes, Send(l))
    ensures SentOnce(Apply(c, m, lanes, Send(l)))
  {
    var n := Apply(c, m, lanes, Send(l));
    forall i, j | 0 <= i < j < |n.sent| ensures Number(n.sent[i]) != Number(n.sent[j]) {
      assert n.sent[i] == m.sent[i];
    }
  }

  /** Even with repeated deliveries and clashing numbers, no number is sent twice. */
  lemma {:induction false} NoNumberIsSentTwice(c: Client, m: Merge, lanes: Lanes, steps: seq<Step>, n: Merge)
    requires SentOnce(m) && Runs(c, m, lanes, steps, n)
    ensures SentOnce(n)
    decreases |steps|
  {
    if steps != [] {
      match steps[0] {
        case Take(l) => TakeSendsOnce(c, m, lanes, l);
        case Send(l) => SendSendsOnce(c, m, lanes, l);
        case _ =>
      }
      NoNumberIsSentTwice(c, Apply(c, m, lanes, steps[0]), lanes, steps[1..], n);
    }
  }

  // --------------------------------------- a handler alone, and a whole replay

  // The views that a merged stream shows.
  function Views(sent: seq<(Lane, LaneEvent)>): seq<View> {
    if sent == [] then []
    else
      var n := |sent| - 1;
      Views(sent[..n]) + match ProjectRunEvent(sent[n].1.wire) case Some(v) => [v] case None => []
  }

  lemma {:induction false} ViewsGrow(sent: seq<(Lane, LaneEvent)>, x: (Lane, LaneEvent))
    requires ProjectRunEvent(x.1.wire).Some?
    ensures Views(sent + [x]) == Views(sent) + [ProjectRunEvent(x.1.wire).value]
  {
    assert (sent + [x])[..|sent|] == sent;
  }

  // One message handled without interruption.
  function Handle(c: Client, m: Merge, lanes: Lanes, l: Lane): Merge
    requires Enabled(m, lanes, Take(l))
  {
    var n := Apply(c, m, lanes, Take(l));
    if l in n.holding then Apply(c, n, lanes, Send(l)) else n
  }

  lemma {:induction false} HandleDoes(c: Client, m: Merge, lanes: Lanes, l: Lane)
    requires Enabled(m, lanes, Take(l))
    ensures
      var (e, n) := (OnLane(lanes, l)[Taken(m, l)], Handle(c, m, lanes, l));
      && n.holding == m.holding && n.cut == m.cut
      && Taken(n, l) == Taken(m, l) + 1 && Taken(n, Other(l)) == Taken(m, Other(l))
      && n.seen == m.seen + (if Admitted(c, e) then {e.wire.seqNo} else {})
      && n.sent == m.sent + (if Wanted(c, e) && e.wire.seqNo !in m.seen then [(l, e)] else [])
      && n.closing == (m.closing || Ends(c, e, m.seen))
  {
    var n := Apply(c, m, lanes, Take(l));
    if l in n.holding {
      assert n.holding - {l} == m.holding;
    }
  }

  /** A handler that runs to its end does what its two steps do: it leaves nothing
      held, and marks and sends what EmitEvent does. */
  lemma {:induction false} HandlerIsTakeThenSend(c: Client, m: Merge, lanes: Lanes, l: Lane)
    requires Enabled(m, lanes, Take(l))
    ensures
      var n := Handle(c, m, lanes, l);
      && n.holding == m.holding && Taken(n, l) == Taken(m, l) + 1
      && Emits(c, OnLane(lanes, l)[Taken(m, l)], m.seen, Views(m.sent), n.seen, Views(n.sent))
      && n.closing == (m.closing || Ends(c, OnLane(lanes, l)[Taken(m, l)], m.seen))
  {
    HandleDoes(c, m, lanes, l);
    var e := OnLane(lanes, l)[Taken(m, l)];
    if Wanted(c, e) && e.wire.seqNo !in m.seen {
      ViewsGrow(m.sent, (l, e));
    } else {
      assert m.sent + [] == m.sent;
    }
  }

  // A subscription from `start`, made when the log's last position is `last`,
  // delivers that position and all later ones; from 0 or past the end, new ones.
  predicate Subscribed(start: nat, last: nat, position: nat) {
    if 0 < start <= last + 1 then start <= position else last < position
  }

  // What a lane's subscription delivers of the log, whose positions count from one.
  function Delivered(log: seq<(Lane, LaneEvent)>, start: nat, last: nat, l: Lane): seq<LaneEvent> {
    if log == [] then []
    else
      var n := |log| - 1;
      Delivered(log[..n], start, last, l) +
      if log[n].0 == l && Subscribed(start, last, n + 1) then [log[n].1] else []
  }

  lemma {:induction false} DeliveredExactly(log: seq<(Lane, LaneEvent)>, start: nat, last: nat, l: Lane, e: LaneEvent)
    ensures e in Delivered(log, start, last, l) <==>
      exists k :: 0 <= k < |log| && log[k] == (l, e) && Subscribed(start, last, k + 1)
  {
    if log != [] {
      var n := |log| - 1;
      DeliveredExactly(log[..n], start, last, l, e);
      if k :| 0 <= k < n && log[..n][k] == (l, e) && Subscribed(start, last, k + 1) {
        assert log[k] == (l, e);
      }
      if k :| 0 <= k < n && log[k] == (l, e) && Subscribed(start, last, k + 1) {
        assert log[..n][k] == (l, e);
      }
    }
  }

  // The lane has nothing left to deliver and its handler nothing to send.
  predicate Drained(m: Merge, lanes: Lanes, l: Lane) {
    Taken(m, l) == |OnLane(lanes, l)| && l !in m.holding
  }

  // The lanes a replaying client reads.
  function ReplayLanes(log: seq<(Lane, LaneEvent)>, start: nat, last: nat): Lanes {
    Lanes(Delivered(log, start, last, Stream), Delivered(log, start, last, State))
  }

  // However the lanes interleave, once this one is drained the event has been sent.
  ghost predicate AlwaysSent(c: Client, lanes: Lanes, l: Lane, e: LaneEvent) {
    forall steps, n :: Runs(c, BEGIN, lanes, steps, n) && Drained(n, lanes, l) ==> (l, e) in n.sent
  }

  predicate SameNumber(c: Client, d: LaneEvent, e: LaneEvent) {
    Admitted(c, d) && d.wire.seqNo == e.wire.seqNo
  }

  // The i-th event of a lane is the first on it for the client with its number.
  predicate FirstAt(c: Client, events: seq<LaneEvent>, i: nat)
    requires i < |events|
  {
    forall j :: 0 <= j < i ==> !SameNumber(c, events[j], events[i])
  }

  // No event for the client on the other lane, and none before it on its own, has
  // the number of the i-th.
  predicate UnrivalledAt(c: Client, lanes: Lanes, l: Lane, i: nat)
    requires i < |OnLane(lanes, l)|
  {
    && FirstAt(c, OnLane(lanes, l), i)
    && forall d :: d in OnLane(lanes, Other(l)) ==> !SameNumber(c, d, OnLane(lanes, l)[i])
  }

  // An event is unrivalled where it first stands on its lane; the same event may
  // be delivered again.
  predicate Unrivalled(c: Client, lanes: Lanes, l: Lane, e: LaneEvent) {
    exists i :: 0 <= i < |OnLane(lanes, l)| && OnLane(lanes, l)[i] == e && UnrivalledAt(c, lanes, l, i)
  }

  predicate Got(m: Merge, l: Lane, e: LaneEvent) {
    (l, e) in m.sent || (l in m.holding && m.holding[l] == e)
  }

  ghost predicate GotWhenTaken(c: Client, m: Merge, lanes: Lanes, l: Lane, i: nat)
    requires i < |OnLane(lanes, l)|
  {
    Shape(m, lanes) && SeenWereTaken(c, m, lanes) && (Got(m, l, OnLane(lanes, l)[i]) <==> i < Taken(m, l))
  }

  lemma {:induction false} UnrivalledIsNew(c: Client, m: Merge, lanes: Lanes, l: Lane, i: nat)
    requires Shape(m, lanes) && SeenWereTaken(c, m, lanes)
    requires i < |OnLane(lanes, l)| && UnrivalledAt(c, lanes, l, i) && Taken(m, l) == i
    ensures OnLane(lanes, l)[i].wire.seqNo !in m.seen
  {
    var e := OnLane(lanes, l)[i];
    forall k, j | 0 <= j < Taken(m, k) && Admitted(c, OnLane(lanes, k)[j])
      ensures OnLane(lanes, k)[j].wire.seqNo != e.wire.seqNo
    {
      if k == l {
        assert !SameNumber(c, OnLane(lanes, l)[j], e);
      } else {
        assert OnLane(lanes, k)[j] in OnLane(lanes, Other(l));
        assert !SameNumber(c, OnLane(lanes, k)[j], e);
      }
    }
  }

  lemma {:induction false} TakeGets(c: Client, m: Merge, lanes: Lanes, k: Lane, l: Lane, i: nat)
    requires i < |OnLane(lanes, l)| && Wanted(c, OnLane(lanes, l)[i]) && UnrivalledAt(c, lanes, l, i)
    requires GotWhenTaken(c, m, lanes, l, i) && Enabled(m, lanes, Take(k))
    ensures GotWhenTaken(c, Apply(c, m, lanes, Take(k)), lanes, l, i)
  {
    var n, e := Apply(c, m, lanes, Take(k)), OnLane(lanes, l)[i];
    SeenStaysTaken(c, m, lanes, k);
    if k == l {
      var j := Taken(m, l);
      if j == i {
        UnrivalledIsNew(c, m, lanes, l, i);
      } else if j < i {
        assert !SameNumber(c, OnLane(lanes, l)[j], e);
      }
    }
  }

  lemma {:induction false} SendGets(c: Client, m: Merge, lanes: Lanes, k: Lane, l: Lane, i: nat)
    requires i < |OnLane(lanes, l)| && GotWhenTaken(c, m, lanes, l, i) && Enabled(m, lanes, Send(k))
    ensures GotWhenTaken(c, Apply(c, m, lanes, Send(k)), lanes, l, i)
  {
    var n, e := Apply(c, m, lanes, Send(k)), OnLane(lanes, l)[i];
    assert (l, e) in n.sent <==> (l, e) in m.sent || (k, m.holding[k]) == (l, e);
  }

  lemma {:induction false} GotRuns(c: Client, m: Merge, lanes: Lanes, steps: seq<Step>, n: Merge, l: Lane, i: nat)
    requires i < |OnLane(lanes, l)| && Wanted(c, OnLane(lanes, l)[i]) && UnrivalledAt(c, lanes, l, i)
    requires GotWhenTaken(c, m, lanes, l, i) && Runs(c, m, lanes, steps, n)
    ensures GotWhenTaken(c, n, lanes, l, i)
    decreases |steps|
  {
    if steps != [] {
      match steps[0] {
        case Take(k) => TakeGets(c, m, lanes, k, l, i);
        case Send(k) => SendGets(c, m, lanes, k, l, i);
        case _ =>
      }
      GotRuns(c, Apply(c, m, lanes, steps[0]), lanes, steps[1..], n, l, i);
    }
  }

  /** An unrivalled event is lost exactly when its lane had not delivered it by the
      time the subscription ended, in every run and wherever it is cut. */
  lemma {:induction false} LostExactly(c: Client, lanes: Lanes, l: Lane, i: nat, steps: seq<Step>, n: Merge)
    requires i < |OnLane(lanes, l)| && Wanted(c, OnLane(lanes, l)[i]) && UnrivalledAt(c, lanes, l, i)
    requires Runs(c, BEGIN, lanes, steps, n) && l !in n.holding
    ensures (l, OnLane(lanes, l)[i]) in n.sent <==> i < Taken(n, l)
  {
    GotRuns(c, BEGIN, lanes, steps, n, l, i);
  }

  // What was taken for the client was seen, and nothing else was sent or is held.
  ghost predicate Past(c: Client, m: Merge, lanes: Lanes) {
    && Shape(m, lanes)
    && (forall l, k :: 0 <= k < Taken(m, l) && Admitted(c, OnLane(lanes, l)[k]) ==>
          OnLane(lanes, l)[k].wire.seqNo in m.seen)
    && (forall l, e :: Got(m, l, e) ==> exists k :: 0 <= k < Taken(m, l) && OnLane(lanes, l)[k] == e)
  }

  lemma {:induction false} TakePast(c: Client, m: Merge, lanes: Lanes, l: Lane)
    requires Past(c, m, lanes) && Enabled(m, lanes, Take(l))
    ensures Past(c, Apply(c, m, lanes, Take(l)), lanes)
  {
    var n := Apply(c, m, lanes, Take(l));
    forall k, e | Got(n, k, e) ensures exists j :: 0 <= j < Taken(n, k) && OnLane(lanes, k)[j] == e {
      if Got(m, k, e) {
        var j :| 0 <= j < Taken(m, k) && OnLane(lanes, k)[j] == e;
        assert j < Taken(n, k);
      } else {
        assert k == l && OnLane(lanes, l)[Taken(m, l)] == e && Taken(m, l) < Taken(n, l);
      }
    }
  }

  lemma {:induction false} SendPast(c: Client, m: Merge, lanes: Lanes, l: Lane)
    requires Past(c, m, lanes) && Enabled(m, lanes, Send(l))
    ensures Past(c, Apply(c, m, lanes, Send(l)), lanes)
  {
    var n := Apply(c, m, lanes, Send(l));
    forall k, e | Got(n, k, e) ensures Got(m, k, e) {
      assert (k, e) in n.sent ==> (k, e) in m.sent || (k, e) == (l, m.holding[l]);
    }
  }

  lemma {:induction false} PastRuns(c: Client, m: Merge, lanes: Lanes, steps: seq<Step>, n: Merge)
    requires Past(c, m, lanes) && Runs(c, m, lanes, steps, n)
    ensures Past(c, n, lanes)
    decreases |steps|
  {
    if steps != [] {
      match steps[0] {
        case Take(l) => TakePast(c, m, lanes, l);
        case Send(l) => SendPast(c, m, lanes, l);
        case _ =>
          var o := Apply(c, m, lanes, steps[0]);
          assert forall k, e :: Got(o, k, e) ==> Got(m, k, e);
      }
      PastRuns(c, Apply(c, m, lanes, steps[0]), lanes, steps[1..], n);
    }
  }

  // The event will not be sent any more: another with its number has been taken.
  predicate Beaten(m: Merge, l: Lane, e: LaneEvent) {
    e.wire.seqNo in m.seen && !Got(m, l, e)
  }

  lemma {:induction false} BeatenByStep(c: Client, m: Merge, lanes: Lanes, step: Step, l: Lane, e: LaneEvent)
    requires Beaten(m, l, e) && Enabled(m, lanes, step)
    ensures Beaten(Apply(c, m, lanes, step), l, e)
  {
    if step.Send? {
      assert (l, e) != (step.lane, m.holding[step.lane]);
    }
  }

  lemma {:induction false} BeatenStays(
    c: Client, m: Merge, lanes: Lanes, steps: seq<Step>, n: Merge, l: Lane, e: LaneEvent)
    requires Beaten(m, l, e) && Runs(c, m, lanes, steps, n)
    ensures Beaten(n, l, e)
    decreases |steps|
  {
    if steps != [] {
      BeatenByStep(c, m, lanes, steps[0], l, e);
      BeatenStays(c, Apply(c, m, lanes, steps[0]), lanes, steps[1..], n, l, e);
    }
  }

  // An event behind another with its number on its own lane is never sent.
  lemma {:induction false} NeverSentBehind(
    c: Client, m: Merge, lanes: Lanes, steps: seq<Step>, n: Merge, l: Lane, j: nat, e: LaneEvent)
    requires j < |OnLane(lanes, l)| && SameNumber(c, OnLane(lanes, l)[j], e)
    requires forall i :: 0 <= i <= j ==> OnLane(lanes, l)[i] != e
    requires Past(c, m, lanes) && (j < Taken(m, l) ==> Beaten(m, l, e)) && Runs(c, m, lanes, steps, n)
    ensures !Got(n, l, e)
    decreases |steps|
  {
    if steps != [] {
      var o := Apply(c, m, lanes, steps[0]);
      OneStep(c, m, lanes, steps[0]);
      PastRuns(c, m, lanes, [steps[0]], o);
      if j < Taken(m, l) {
        BeatenByStep(c, m, lanes, steps[0], l, e);
      }
      NeverSentBehind(c, o, lanes, steps[1..], n, l, j, e);
    }
  }

  lemma {:induction false} HandleRuns(c: Client, m: Merge, lanes: Lanes, l: Lane) returns (steps: seq<Step>)
    requires Enabled(m, lanes, Take(l))
    ensures Runs(c, m, lanes, steps, Handle(c, m, lanes, l))
  {
    var n := Apply(c, m, lanes, Take(l));
    OneStep(c, m, lanes, Take(l));
    steps := [Take(l)];
    if l in n.holding {
      OneStep(c, n, lanes, Send(l));
      RunsOn(c, lanes, m, steps, n, [Send(l)], Handle(c, m, lanes, l));
      steps := steps + [Send(l)];
    }
  }

  // One lane delivers up to a point while the other waits.
  lemma {:induction false} Drain(c: Client, m: Merge, lanes: Lanes, l: Lane, upTo: nat)
    returns (steps: seq<Step>, n: Merge)
    requires Shape(m, lanes) && l !in m.cut && l !in m.holding && Taken(m, l) <= upTo <= |OnLane(lanes, l)|
    ensures Runs(c, m, lanes, steps, n) && Shape(n, lanes)
    ensures Taken(n, l) == upTo && Taken(n, Other(l)) == Taken(m, Other(l))
    ensures n.cut == m.cut && n.holding == m.holding
    decreases upTo - Taken(m, l)
  {
    steps, n := [], m;
    if Taken(m, l) < upTo {
      var next := Handle(c, m, lanes, l);
      var first := HandleRuns(c, m, lanes, l);
      HandleDoes(c, m, lanes, l);
      var rest;
      rest, n := Drain(c, next, lanes, l, upTo);
      RunsOn(c, lanes, m, first, next, rest, n);
      steps := first + rest;
    }
  }

  // A run that drains lane l after the j-th event of lane k has come first.
  lemma {:induction false} ComesFirst(c: Client, lanes: Lanes, k: Lane, j: nat, l: Lane, e: LaneEvent)
    returns (steps: seq<Step>, n: Merge)
    requires j < |OnLane(lanes, k)| && SameNumber(c, OnLane(lanes, k)[j], e)
    requires k == l ==> forall i :: 0 <= i <= j ==> OnLane(lanes, l)[i] != e
    ensures Runs(c, BEGIN, lanes, steps, n) && Drained(n, lanes, l) && (l, e) !in n.sent
  {
    var before, m := Drain(c, BEGIN, lanes, k, j + 1);
    assert Past(c, BEGIN, lanes);
    PastRuns(c, BEGIN, lanes, before, m);
    assert j < Taken(m, k) && forall i :: 0 <= i < Taken(m, l) ==> OnLane(lanes, l)[i] != e;
    var after;
    after, n := Drain(c, m, lanes, l, |OnLane(lanes, l)|);
    RunsOn(c, lanes, BEGIN, before, m, after, n);
    BeatenStays(c, m, lanes, after, n, l, e);
    steps := before + after;
  }

  lemma {:induction false} FirstPlace(events: seq<LaneEvent>, e: LaneEvent) returns (i: nat)
    requires e in events
    ensures i < |events| && events[i] == e && e !in events[..i]
  {
    i := 0;
    while events[i] != e
      invariant 0 <= i < |events| && e !in events[..i] && e in events[i..]
      decreases |events| - i
    {
      i := i + 1;
    }
  }

  /** When an event is sent for certain: once its lane is drained, however the lanes
      interleave, exactly when nothing for the client rivals its number. */
  lemma {:induction false} SentExactly(c: Client, lanes: Lanes, l: Lane, e: LaneEvent)
    requires e in OnLane(lanes, l) && Wanted(c, e)
    ensures AlwaysSent(c, lanes, l, e) <==> Unrivalled(c, lanes, l, e)
  {
    if Unrivalled(c, lanes, l, e) {
      var i :| 0 <= i < |OnLane(lanes, l)| && OnLane(lanes, l)[i] == e && UnrivalledAt(c, lanes, l, i);
      forall steps, n | Runs(c, BEGIN, lanes, steps, n) && Drained(n, lanes, l) ensures (l, e) in n.sent {
        LostExactly(c, lanes, l, i, steps, n);
      }
    } else {
      var steps, n := RivalledIsLost(c, lanes, l, e);
    }
  }

  lemma {:induction false} RivalledIsLost(c: Client, lanes: Lanes, l: Lane, e: LaneEvent)
    returns (steps: seq<Step>, n: Merge)
    requires e in OnLane(lanes, l) && !Unrivalled(c, lanes, l, e)
    ensures Runs(c, BEGIN, lanes, steps, n) && Drained(n, lanes, l) && (l, e) !in n.sent
  {
    var own, other := OnLane(lanes, l), OnLane(lanes, Other(l));
    var i := FirstPlace(own, e);
    if FirstAt(c, own, i) {
      var d :| d in other && SameNumber(c, d, e);
      var j :| 0 <= j < |other| && other[j] == d;
      steps, n := ComesFirst(c, lanes, Other(l), j, l, e);
    } else {
      var j :| 0 <= j < i && SameNumber(c, own[j], e);
      assert forall k :: 0 <= k <= j ==> own[..i][k] == own[k];
      steps, n := ComesFirst(c, lanes, l, j, l, e);
    }
  }

  // An event of the log that a replay has to show for message `id`.
  predicate Shows(log: seq<(Lane, LaneEvent)>, position: nat, l: Lane, e: LaneEvent, id: nat) {
    && 0 < position <= |log| && log[position - 1] == (l, e)
    && FormatUint(id) in e.replyTo && e.wire.seqNo != 0 && ProjectRunEvent(e.wire).Some?
  }

  // In every run the event has been sent exactly when its lane has delivered it.
  ghost predicate SentWhenTaken(c: Client, lanes: Lanes, l: Lane, i: nat)
    requires i < |OnLane(lanes, l)|
  {
    forall steps, n :: Runs(c, BEGIN, lanes, steps, n) && l !in n.holding ==>
      ((l, OnLane(lanes, l)[i]) in n.sent <==> i < Taken(n, l))
  }

  /** What a replaying client gets of a recent run: every event from the run's start
      on that answers a recent message and can be shown is delivered by its lane. It
      has been sent for certain once the lane is drained exactly when nothing rivals
      its number; and then it is lost exactly when the stream closed before its lane
      had delivered it. */
  lemma {:induction false} ReplayDeliversRun(
    ds: seq<SM.Delivery>, since: int, r: ReplayState, id: nat,
    log: seq<(Lane, LaneEvent)>, last: nat, position: nat, l: Lane, e: LaneEvent)
    requires ReplayOf(After(ds), RecentIDs(After(ds), since), r) && r.stateStart <= MAX_INT64
    requires id in RecentIDs(After(ds), since) && Shows(log, position, l, e, id)
    requires var start := After(ds)[id].stateStart; start.Some? && start.value <= last && start.value <= position
    ensures
      var (c, lanes) := (Client(true, r.messageIDs), ReplayLanes(log, StartPosition(r), last));
      && e in OnLane(lanes, l) && Wanted(c, e)
      && (AlwaysSent(c, lanes, l, e) <==> Unrivalled(c, lanes, l, e))
      && forall i :: 0 <= i < |OnLane(lanes, l)| && OnLane(lanes, l)[i] == e && UnrivalledAt(c, lanes, l, i) ==>
           SentWhenTaken(c, lanes, l, i)
  {
    var c, start := Client(true, r.messageIDs), StartPosition(r);
    var lanes := ReplayLanes(log, start, last);
    ReplayedExactly(ds, since, r, id);
    assert Subscribed(start, last, position) && log[position - 1] == (l, e);
    DeliveredExactly(log, start, last, l, e);
    SentExactly(c, lanes, l, e);
    forall i | 0 <= i < |OnLane(lanes, l)| && OnLane(lanes, l)[i] == e && UnrivalledAt(c, lanes, l, i)
      ensures SentWhenTaken(c, lanes, l, i)
    {
      UnrivalledSends(c, lanes, l, i);
    }
  }

  lemma {:induction false} UnrivalledSends(c: Client, lanes: Lanes, l: Lane, i: nat)
    requires i < |OnLane(lanes, l)| && Wanted(c, OnLane(lanes, l)[i]) && UnrivalledAt(c, lanes, l, i)
    ensures SentWhenTaken(c, lanes, l, i)
  {
    forall steps, n | Runs(c, BEGIN, lanes, steps, n) && l !in n.holding
      ensures (l, OnLane(lanes, l)[i]) in n.sent <==> i < Taken(n, l)
    {
      LostExactly(c, lanes, l, i, steps, n);
    }
  }

  /** Two replayed events that share a number are never both sent: the second run
      of two that are replayed together loses what the first has numbered alike. */
  lemma {:induction false} SharedNumberIsSentOnce(
    c: Client, lanes: Lanes, steps: seq<Step>, n: Merge, k: Lane, d: LaneEvent, l: Lane, e: LaneEvent)
    requires Runs(c, BEGIN, lanes, steps, n)
    requires d.wire.seqNo == e.wire.seqNo && (k, d) != (l, e)
    ensures (k, d) !in n.sent || (l, e) !in n.sent
  {
    if (k, d) in n.sent && (l, e) in n.sent {
      var i :| 0 <= i < |n.sent| && n.sent[i] == (k, d);
      var j :| 0 <= j < |n.sent| && n.sent[j] == (l, e);
      NoNumberIsSentTwice(c, BEGIN, lanes, steps, n);
    }
  }

  // run.started of the run that answers this message; each run numbers it one.
  function RunStart(id: nat): LaneEvent {
    LaneEvent(Wire(RunStarted, 1, 0, "", "", "", None, None, [], None, None, None, None, None, None),
              [FormatUint(id)])
  }

  lemma {:induction false} BothReplayed(content: string, r: ReplayState)
    requires
      var t := After(TwoRuns(content, 1, 2, 0));
      ReplayOf(t, RecentIDs(t, 0), r)
    ensures RecentIDs(After(TwoRuns(content, 1, 2, 0)), 0) == {1, 2}
    ensures StartPosition(r) == 1 && r.messageIDs == {FormatUint(1), FormatUint(2)}
  {
    TwoRunsAnswering(content, 1, 2, 0);
    var t := After(TwoRuns(content, 1, 2, 0));
    TwoRecent(t, 1, Answering(content, 1, 0), 2, Answering(content, 2, 0), 0);
  }

  lemma {:induction false} TwoRecent(t: SM.Table, i: nat, a: SM.Message, j: nat, b: SM.Message, since: int)
    requires t == map[i := a, j := b] && i != j && SM.Recent(a, since) && SM.Recent(b, since)
    requires a.stateStart.Some? && b.stateStart.Some?
    ensures RecentIDs(t, since) == {i, j} && IDTexts({i, j}) == {FormatUint(i), FormatUint(j)}
    ensures StateStarts(t, {i, j}) == {a.stateStart.value, b.stateStart.value}
  {
    assert t[i] == a && t[j] == b;
  }

  lemma {:induction false} StartsDelivered(a: LaneEvent, b: LaneEvent)
    ensures ReplayLanes([(State, a), (State, b)], 1, 2) == Lanes([], [a, b])
  {
    var log := [(State, a), (State, b)];
    assert log[..1] == [(State, a)] && [(State, a)][..0] == [];
    assert Delivered(log[..1], 1, 2, State) == [a];
    assert Delivered(log[..1], 1, 2, Stream) == [];
  }

  /** Two messages are replayed together, each answered by a run of its own. Both
      starts are delivered and wanted, both are numbered one, and the second is
      never sent. */
  lemma {:induction false} SecondRunLosesItsStart(content: string, r: ReplayState)
    requires
      var t := After(TwoRuns(content, 1, 2, 0));
      ReplayOf(t, RecentIDs(t, 0), r)
    ensures
      var (c, log) := (Client(true, r.messageIDs), [(State, RunStart(1)), (State, RunStart(2))]);
      var lanes := ReplayLanes(log, StartPosition(r), 2);
      && RecentIDs(After(TwoRuns(content, 1, 2, 0)), 0) == {1, 2}
      && lanes == Lanes([], [RunStart(1), RunStart(2)])
      && Wanted(c, RunStart(1)) && Wanted(c, RunStart(2))
      && forall steps, n :: Runs(c, BEGIN, lanes, steps, n) ==> (State, RunStart(2)) !in n.sent
  {
    BothReplayed(content, r);
    StartsDelivered(RunStart(1), RunStart(2));
    StartsDiffer();
    var c := Client(true, r.messageIDs);
    var lanes := Lanes([], [RunStart(1), RunStart(2)]);
    assert FormatUint(1) in RunStart(1).replyTo && FormatUint(2) in RunStart(2).replyTo;
    assert SameNumber(c, RunStart(1), RunStart(2));
    forall steps, n | Runs(c, BEGIN, lanes, steps, n) ensures (State, RunStart(2)) !in n.sent {
      NeverSentBehind(c, BEGIN, lanes, steps, n, State, 0, RunStart(2));
    }
  }

  lemma {:induction false} StartsDiffer()
    ensures RunStart(1) != RunStart(2)
  {
    FormatValue(1);
    FormatValue(2);
    assert RunStart(1).replyTo[0] == FormatUint(1) && RunStart(2).replyTo[0] == FormatUint(2);
  }
}
