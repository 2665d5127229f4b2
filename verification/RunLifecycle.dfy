/**
 One agent run: run.started, prepare, execute, finalize, artifact events, exactly
 one terminal. Every phase may fail, and so may every emission to the sink.
 */
module RunLifecycle {
  import opened Common
  import opened Errors
  import opened Events
  import opened Journal

  // ------------------------------------------------------------- executor

  datatype ExecutionRequest = ExecutionRequest(executionID: string, runtime: string)

  datatype ExecutionResult = ExecutionResult(message: string)

  /** What a runtime does when called: the events it hands to its observer, in
      order, and what it returns. An adaptive runtime is some such pair for each
      behaviour of the sink. */
  datatype Runtime = Runtime(events: seq<Event>, outcome: Result<ExecutionResult, Error>)

  // The runtime contract: run events belong to the service.
  predicate Ordinary(kind: EventType) {
    !IsTerminal(kind) && !kind.RunStarted?
  }

  predicate ObeysContract(rt: Runtime) {
    forall e :: e in rt.events ==> Ordinary(e.kind)
  }

  predicate IsExecutionEvent(kind: EventType) {
    kind.ExecutionStarted? || kind.ExecutionCompleted? || kind.ExecutionFailed? || kind.ExecutionCancelled?
  }

  // `later` continues `trace` with ordinary events only.
  ghost predicate Continues(trace: seq<Event>, later: seq<Event>) {
    trace <= later && forall k :: |trace| <= k < |later| ==> Ordinary(later[k].kind)
  }

  // An event as the journal emits it: numbers, times and owners may be filled in.
  ghost predicate Says(emitted: Event, event: Event) {
    emitted.kind == event.kind && emitted.payload == event.payload && emitted.content == event.content
  }

  // `later` is `trace` and then what `more` says, in order.
  ghost predicate Adds(trace: seq<Event>, later: seq<Event>, more: seq<Event>) {
    if more == [] then later == trace
    else
      && later != []
      && Says(later[|later| - 1], more[|more| - 1])
      && Adds(trace, later[..|later| - 1], more[..|more| - 1])
  }

  lemma {:induction false} AddsOne(trace: seq<Event>, later: seq<Event>, more: seq<Event>, e: Event, event: Event)
    requires Adds(trace, later, more) && Says(e, event)
    ensures Adds(trace, later + [e], more + [event])
  {
    assert (later + [e])[..|later|] == later;
    assert (more + [event])[..|more|] == more;
  }

  // The events a lifecycle-dropping observer lets through.
  function Recorded(events: seq<Event>): seq<Event> {
    if events == [] then []
    else if IsExecutionEvent(events[0].kind) then Recorded(events[1..])
    else [events[0]] + Recorded(events[1..])
  }

  // Lifecycle events do not pass, and everything else does, in order.
  lemma {:induction false} RecordedExactly(events: seq<Event>)
    ensures forall e :: e in Recorded(events) <==>
      e in events && e.kind !in {ExecutionStarted, ExecutionCompleted, ExecutionFailed, ExecutionCancelled}
    ensures (forall e :: e in events ==>
      e.kind !in {ExecutionStarted, ExecutionCompleted, ExecutionFailed, ExecutionCancelled}) ==>
      Recorded(events) == events
    decreases |events|
  {
    if events != [] {
      RecordedExactly(events[1..]);
      assert events == [events[0]] + events[1..];
    }
  }

  // What an observer adds to its journal.
  function Heard(dropsLifecycle: bool, events: seq<Event>): seq<Event> {
    if dropsLifecycle then Recorded(events) else events
  }

  lemma {:induction false} AddsTwice(a: seq<Event>, b: seq<Event>, c: seq<Event>, x: seq<Event>, y: seq<Event>)
    requires Adds(a, b, x) && Adds(b, c, y)
    ensures Adds(a, c, x + y)
    decreases |y|
  {
    if y == [] {
      assert x + y == x;
    } else {
      var m, n := |c| - 1, |y| - 1;
      AddsTwice(a, b, c[..m], x, y[..n]);
      AddsOne(a, c[..m], x + y[..n], c[m], y[n]);
      assert c[..m] + [c[m]] == c && x + y[..n] + [y[n]] == x + y;
    }
  }

  lemma {:induction false} Bracketed(
    a: seq<Event>, e: Event, start: Event, c: seq<Event>, events: seq<Event>, close: Event)
    requires Says(e, start) && Adds(a + [e], c, events + [close])
    ensures Adds(a, c, [start] + events + [close])
  {
    AddsOne(a, a, [], e, start);
    assert [] + [start] == [start];
    AddsTwice(a, a + [e], c, [start], events + [close]);
    assert [start] + (events + [close]) == [start] + events + [close];
  }

  // What is heard first is heard before the rest.
  lemma {:induction false} HeardNext(drops: bool, said: seq<Event>, events: seq<Event>, i: nat)
    requires i < |events|
    ensures
      said + Heard(drops, events[i..]) ==
      (if drops && IsExecutionEvent(events[i].kind) then said else said + [events[i]]) + Heard(drops, events[i + 1..])
  {
    assert events[i..][1..] == events[i + 1..];
    assert events[i..] == [events[i]] + events[i + 1..];
    var rest := Heard(drops, events[i + 1..]);
    assert said + ([events[i]] + rest) == said + [events[i]] + rest;
  }

  function ExecutionEvent(request: ExecutionRequest, kind: EventType): Event {
    Event(request.executionID, 0, kind, 0, Absent, "")
  }

  /** An observer that writes to a journal; the service's own one drops the
      executor's lifecycle events. */
  class Observer {
    const journal: RunJournal
    const dropsLifecycle: bool

    constructor (journal: RunJournal, dropsLifecycle: bool)
      ensures this.journal == journal && this.dropsLifecycle == dropsLifecycle
    {
      this.journal, this.dropsLifecycle := journal, dropsLifecycle;
    }

    method Emit(event: Event, now: int) returns (err: Option<Error>)
      requires journal.Valid()
      modifies journal
      ensures journal.Valid()
      ensures dropsLifecycle && IsExecutionEvent(event.kind) ==>
        err == None && journal.emitted == old(journal.emitted) && journal.rawEvents == old(journal.rawEvents)
      ensures !(dropsLifecycle && IsExecutionEvent(event.kind)) ==>
        |journal.emitted| > 0 && Says(journal.emitted[|journal.emitted| - 1], event)
        && journal.emitted == old(journal.emitted) + [journal.emitted[|journal.emitted| - 1]]
      ensures Ordinary(event.kind) ==> Continues(old(journal.emitted), journal.emitted)
    {
      err := None;
      if !(dropsLifecycle && IsExecutionEvent(event.kind)) {
        err := journal.Append(event, now);
      }
    }
  }

  class Executor {
    const registry: map<string, Runtime>
    const defaultKind: string

    constructor (registry: map<string, Runtime>, defaultKind: string)
      ensures this.registry == registry && this.defaultKind == defaultKind
    {
      this.registry, this.defaultKind := registry, defaultKind;
    }

    // Names are compared after trimming and lower-casing; both are done to `kind` already.
    function Resolve(kind: string): Option<Runtime> {
      var name := if kind == "" then defaultKind else kind;
      if name in registry then Some(registry[name]) else None
    }

    // The runtime hands its events to the observer; it may ignore their errors.
    method Drive(rt: Runtime, observer: Observer, now: int)
      requires observer.journal.Valid() && ObeysContract(rt)
      modifies observer.journal
      ensures observer.journal.Valid()
      ensures Continues(old(observer.journal.emitted), observer.journal.emitted)
      ensures Adds(old(observer.journal.emitted), observer.journal.emitted, Heard(observer.dropsLifecycle, rt.events))
    {
      var i := 0;
      var j := observer.journal;
      ghost var said: seq<Event> := [];
      ghost var drops := observer.dropsLifecycle;
      assert said + Heard(drops, rt.events[0..]) == Heard(drops, rt.events);
      while i < |rt.events|
        invariant 0 <= i <= |rt.events|
        invariant j.Valid() && Continues(old(j.emitted), j.emitted)
        invariant Adds(old(j.emitted), j.emitted, said)
        invariant said + Heard(drops, rt.events[i..]) == Heard(drops, rt.events)
      {
        ghost var before := j.emitted;
        HeardNext(drops, said, rt.events, i);
        var ignored := observer.Emit(rt.events[i], now);
        if !(drops && IsExecutionEvent(rt.events[i].kind)) {
          AddsOne(old(j.emitted), before, said, j.emitted[|before|], rt.events[i]);
          said := said + [rt.events[i]];
        }
        i := i + 1;
      }
      assert said + Heard(drops, rt.events[i..]) == said;
    }

    // The runtime a request reaches.
    function Reached(request: ExecutionRequest): Option<Runtime> {
      if request.executionID == "" then None else Resolve(request.runtime)
    }

    // A cancelled runtime is reported as cancelled and stays so in the error; any
    // other error as failed; a result as completed, unchanged.
    ghost predicate Closing(
      outcome: Result<ExecutionResult, Error>, r: Result<ExecutionResult, Error>, reported: Option<EventType>)
    {
      match outcome
      case Err(e) =>
        && (Holds(e) ==> reported == Some(ExecutionCancelled) && r.Err? && Holds(r.error))
        && (!Holds(e) ==> reported == Some(ExecutionFailed) && r.Err?)
      case Ok(x) => reported == Some(ExecutionCompleted) && (r.Ok? ==> r == Ok(x))
    }

    // What a request gives when no lifecycle event is refused.
    function Outcome(request: ExecutionRequest): Result<ExecutionResult, Error> {
      if request.executionID == "" then Err(Simple("execution id is required"))
      else match Resolve(request.runtime)
        case None => Err(Wrapped("resolve runtime", Simple("runtime is not available")))
        case Some(rt) => rt.outcome
    }

    // What a request adds to the service's journal.
    function Said(request: ExecutionRequest): seq<Event> {
      match Reached(request)
      case None => []
      case Some(rt) => Recorded(rt.events)
    }

    /** Runs a runtime between two lifecycle events. `called` says which runtime
        was reached, `reported` which closing lifecycle event was sent. */
    method Execute(request: ExecutionRequest, observer: Observer, now: int)
      returns (r: Result<ExecutionResult, Error>, ghost called: Option<Runtime>, ghost reported: Option<EventType>)
      requires observer.journal.Valid()
      requires forall name :: name in registry ==> ObeysContract(registry[name])
      modifies observer.journal
      ensures observer.journal.Valid()
      ensures Continues(old(observer.journal.emitted), observer.journal.emitted)
      ensures called.Some? <==> reported.Some?
      ensures called == None ==> r.Err?
      ensures called.Some? ==> Reached(request) == called
      ensures called.Some? ==> Closing(called.value.outcome, r, reported)
      ensures observer.dropsLifecycle ==>
        && called == Reached(request) && r == Outcome(request)
        && Adds(old(observer.journal.emitted), observer.journal.emitted, Said(request))
      ensures !observer.dropsLifecycle && called.Some? ==>
        Adds(old(observer.journal.emitted), observer.journal.emitted,
             [ExecutionEvent(request, ExecutionStarted)] + called.value.events +
             [ExecutionEvent(request, reported.value)])
    {
      called, reported := None, None;
      var j := observer.journal;
      if request.executionID == "" {
        r := Err(Simple("execution id is required"));
        return;
      }
      var rt := Resolve(request.runtime);
      if rt == None {
        r := Err(Wrapped("resolve runtime", Simple("runtime is not available")));
        return;
      }
      ghost var first := j.emitted;
      ghost var start := ExecutionEvent(request, ExecutionStarted);
      var err := observer.Emit(ExecutionEvent(request, ExecutionStarted), now);
      if err.Some? {
        r := Err(Wrapped("observe execution.started", err.value));
        return;
      }
      called := rt;
      ghost var begun := j.emitted;
      r, reported := DriveAndClose(request, rt.value, observer, now);
      if !observer.dropsLifecycle {
        Bracketed(first, begun[|first|], start, j.emitted, rt.value.events, ExecutionEvent(request, reported.value));
      }
    }

    // The runtime, and the closing lifecycle event.
    method DriveAndClose(request: ExecutionRequest, rt: Runtime, observer: Observer, now: int)
      returns (r: Result<ExecutionResult, Error>, ghost reported: Option<EventType>)
      requires observer.journal.Valid() && ObeysContract(rt)
      modifies observer.journal
      ensures observer.journal.Valid()
      ensures Continues(old(observer.journal.emitted), observer.journal.emitted)
      ensures Closing(rt.outcome, r, reported)
      ensures observer.dropsLifecycle ==>
        && r == rt.outcome
        && Adds(old(observer.journal.emitted), observer.journal.emitted, Recorded(rt.events))
      ensures !observer.dropsLifecycle ==>
        Adds(old(observer.journal.emitted), observer.journal.emitted,
             rt.events + [ExecutionEvent(request, reported.value)])
    {
      ghost var first := observer.journal.emitted;
      Drive(rt, observer, now);
      ghost var driven := observer.journal.emitted;
      r, reported := Close(request, rt.outcome, observer, now);
      if !observer.dropsLifecycle {
        AddsOne(first, driven, rt.events, observer.journal.emitted[|driven|], ExecutionEvent(request, reported.value));
      }
    }

    // The closing lifecycle event.
    method Close(request: ExecutionRequest, outcome: Result<ExecutionResult, Error>, observer: Observer, now: int)
      returns (r: Result<ExecutionResult, Error>, ghost reported: Option<EventType>)
      requires observer.journal.Valid()
      modifies observer.journal
      ensures observer.journal.Valid()
      ensures Continues(old(observer.journal.emitted), observer.journal.emitted)
      ensures Closing(outcome, r, reported)
      ensures observer.dropsLifecycle ==> r == outcome && observer.journal.emitted == old(observer.journal.emitted)
      ensures !observer.dropsLifecycle ==>
        && |observer.journal.emitted| > 0
        && var last := observer.journal.emitted[|observer.journal.emitted| - 1];
        Says(last, ExecutionEvent(request, reported.value)) &&
        observer.journal.emitted == old(observer.journal.emitted) + [last]
    {
      match outcome {
        case Err(e) =>
          CancellationIsHeld(e);
          var kind := if IsCancellation(e) then ExecutionCancelled else ExecutionFailed;
          reported := Some(kind);
          var observerErr := observer.Emit(ExecutionEvent(request, kind), now);
          if observerErr.Some? {
            JoinedHolds(e, Wrapped("observe", observerErr.value));
            r := Err(Joined([e, Wrapped("observe", observerErr.value)]));
          } else {
            r := Err(e);
          }
        case Ok(x) =>
          reported := Some(ExecutionCompleted);
          var observerErr := observer.Emit(ExecutionEvent(request, ExecutionCompleted), now);
          r := if observerErr.Some? then Err(Wrapped("observe execution.completed", observerErr.value)) else Ok(x);
      }
    }
  }

  // -------------------------------------------------------------- service

  /** A run's result. `encodes` says whether its own raw JSON parts are valid. */
  datatype RunResult = RunResult(status: RunStatus, message: string, error: Option<Error>, phase: string, encodes: bool)

  datatype Finalization = FinalizeFailed(error: Error) | Incomplete | Finalized(result: RunResult, events: seq<Event>)

  // Everything outside the service that a run meets.
  datatype World = World(
    prepared: Result<ExecutionRequest, Error>,
    finalized: Finalization)

  // The finalizer reports success as completed and declares ordinary events.
  predicate FinalizerContract(f: Finalization) {
    f.Finalized? ==> f.result.status == StatusCompleted && forall e :: e in f.events ==> Ordinary(e.kind)
  }

  function TerminalKind(status: RunStatus): EventType {
    match status
    case StatusCompleted => RunCompleted
    case StatusFailed => RunFailed
    case StatusCancelled => RunCancelled
  }

  // json.Marshal refuses raw messages that are not JSON.
  predicate RecordsEncode(records: seq<Record>) {
    forall r :: r in records ==> !r.payload.Malformed?
  }

  predicate EventsEncode(events: seq<Event>) {
    forall e :: e in events && Kept(e) ==> !e.payload.Malformed?
  }

  // A broken payload that is kept has a record of its own.
  lemma {:induction false} BrokenIsArchived(events: seq<Event>, i: nat)
    requires i < |events| && Kept(events[i]) && events[i].payload.Malformed?
    ensures !RecordsEncode(GroupBy(events))
  {
    assert KeyOf(events[i]) == None && Opens(events, i);
    var k :| 0 <= k < |Openers(events)| && Openers(events)[k] == i;
    assert GroupBy(events)[k] == Plain(events[i]);
    assert GroupBy(events)[k] in GroupBy(events);
  }

  lemma {:induction false} BrokenWasKept(events: seq<Event>, k: nat)
    requires k < |GroupBy(events)| && GroupBy(events)[k].payload.Malformed?
    ensures !EventsEncode(events)
  {
    var i := Openers(events)[k];
    if KeyOf(events[i]).Some? {
      FirstOfGroup(events, i, KeyOf(events[i]).value);
    }
    assert events[i] in events && Kept(events[i]);
  }

  /** The archive of a journal encodes exactly when every event it keeps does:
      merging never hides a broken payload and never makes one. */
  lemma {:induction false} ArchiveEncodes(events: seq<Event>)
    ensures RecordsEncode(GroupBy(events)) <==> EventsEncode(events)
  {
    if e :| e in events && Kept(e) && e.payload.Malformed? {
      var i :| 0 <= i < |events| && events[i] == e;
      BrokenIsArchived(events, i);
    }
    if r :| r in GroupBy(events) && r.payload.Malformed? {
      var k :| 0 <= k < |GroupBy(events)| && GroupBy(events)[k] == r;
      BrokenWasKept(events, k);
    }
  }

  // What a terminal event carries: the result, and the archive of a trace.
  function Report(result: RunResult, trace: seq<Event>): Payload {
    TerminalJson(TerminalPayload(result.status, result.message, result.error, Archive(trace)))
  }

  /** The terminal event of a result, with the archive of the journal so far. */
  method NewTerminalEvent(result: RunResult, kind: EventType, j: RunJournal) returns (r: Option<Event>)
    requires j.Valid()
    ensures r.Some? <==> result.encodes && EventsEncode(j.rawEvents)
    ensures r.Some? ==>
      r.value.kind == kind && r.value.seqNo == 0 && r.value.payload == Report(result, j.rawEvents)
  {
    var records := j.Snapshot();
    ArchiveEncodes(j.rawEvents);
    if !result.encodes || !RecordsEncode(records) {
      return None;
    }
    var payload := TerminalJson(TerminalPayload(result.status, result.message, result.error, records));
    return Some(Event(j.runID, 0, kind, 0, payload, result.message));
  }

  // The trace opens with run.started and holds no other run event.
  ghost predicate Open(trace: seq<Event>) {
    && |trace| >= 1 && trace[0].kind == RunStarted && trace[0].payload == Absent
    && forall k :: 1 <= k < |trace| ==> Ordinary(trace[k].kind)
  }

  // The trace is an open one closed by one terminal event of this kind.
  ghost predicate Closed(trace: seq<Event>, kind: EventType) {
    |trace| >= 2 && Open(trace[..|trace| - 1]) && trace[|trace| - 1].kind == kind && IsTerminal(kind)
  }

  // The terminal reports the result and archives all that was emitted before it.
  ghost predicate ArchivesThePast(trace: seq<Event>, result: RunResult) {
    |trace| >= 1 &&
    var front, last := trace[..|trace| - 1], trace[|trace| - 1];
    && last.payload == Report(result, front)
    && forall r :: r in Archive(front) ==> r.seqNo < last.seqNo && r.lastSeq < last.seqNo
  }

  // An open trace is run.started and then what was handed to its journal.
  ghost predicate Tells(trace: seq<Event>, handed: seq<Event>) {
    && trace != []
    && if handed == [] then |trace| == 1 && trace[0].kind == RunStarted && trace[0].payload == Absent
       else
         var e, event := trace[|trace| - 1], handed[|handed| - 1];
         Ordinary(e.kind) && Says(e, event) && Tells(trace[..|trace| - 1], handed[..|handed| - 1])
  }

  // What the outside of a run decides: the events it hands in, its result, and
  // the error that ended it early.
  datatype Plan = Plan(handed: seq<Event>, result: RunResult, cause: Option<Error>)

  const EncodeError := Simple("marshal terminal payload")

  // The result of a run that `cause` ended in `phase`.
  function Failure(phase: string, cause: Error): (r: RunResult) {
    if IsCancellation(cause) then RunResult(StatusCancelled, CANCELLED_TEXT, Some(cause), phase, true)
    else RunResult(StatusFailed, "", Some(cause), phase, true)
  }

  function FailedPlan(handed: seq<Event>, phase: string, cause: Error): Plan {
    Plan(handed, Failure(phase, cause), Some(cause))
  }

  // What a journal that was handed `said` is handed when `events` follow, up to
  // the first one the sink refuses, and that refusal.
  function HandedOver(sink: nat -> Option<Error>, said: seq<Event>, events: seq<Event>): (seq<Event>, Option<Error>)
    decreases |events|
  {
    if events == [] then (said, None)
    else
      var answer := sink(1 + |said|);
      if answer.Some? then (said + [events[0]], answer) else HandedOver(sink, said + [events[0]], events[1..])
  }

  // Everything before a refused event was accepted; with no refusal all was.
  lemma {:induction false} HandedOverMeans(sink: nat -> Option<Error>, said: seq<Event>, events: seq<Event>)
    ensures
      var (handed, refusal) := HandedOver(sink, said, events);
      var n := |handed| - |said|;
      && 0 <= n <= |events| && handed == said + events[..n]
      && (refusal == None ==> n == |events| && forall k :: |said| < k <= |handed| ==> sink(k) == None)
      && (refusal.Some? ==>
        n > 0 && sink(|handed|) == refusal && forall k :: |said| < k < |handed| ==> sink(k) == None)
    decreases |events|
  {
    if events != [] && sink(1 + |said|) == None {
      HandedOverMeans(sink, said + [events[0]], events[1..]);
      var (handed, _) := HandedOver(sink, said, events);
      var n := |handed| - |said|;
      assert said + events[..n] == said + [events[0]] + events[1..][..n - 1];
    }
  }

  ghost function CompletePlan(handed: seq<Event>, final: RunResult): Plan {
    if final.encodes && EventsEncode(handed) then Plan(handed, final, None)
    else FailedPlan(handed, "terminal_encode", EncodeError)
  }

  ghost function PublishPlan(
    said: seq<Event>, final: RunResult, events: seq<Event>, sink: nat -> Option<Error>): Plan
  {
    match HandedOver(sink, said, events)
    case (handed, Some(e)) => FailedPlan(handed, "artifact_publish", Wrapped("record artifact event", e))
    case (handed, None) => CompletePlan(handed, final)
  }

  ghost function FinalPlan(said: seq<Event>, finalized: Finalization, sink: nat -> Option<Error>): Plan {
    match finalized
    case FinalizeFailed(e) => FailedPlan(said, "finalize", e)
    case Incomplete => FailedPlan(said, "finalize", Simple("finalizer returned an incomplete result"))
    case Finalized(final, events) => PublishPlan(said, final, events, sink)
  }

  // The error of the call that ends the run: an encoding or a sink error.
  ghost function ClosingError(handed: seq<Event>, sink: nat -> Option<Error>): Option<Error> {
    if EventsEncode(handed) then sink(1 + |handed|) else Some(EncodeError)
  }

  // The error a run returns.
  ghost function Returned(plan: Plan, sink: nat -> Option<Error>): Option<Error> {
    match (plan.cause, ClosingError(plan.handed, sink))
    case (None, None) => None
    case (None, Some(e)) => Some(Wrapped("record run.completed", e))
    case (Some(c), None) => Some(c)
    case (Some(c), Some(e)) => Some(Joined([c, Wrapped("record terminal event", e)]))
  }

  /** How an accepted run ends: by exactly one terminal of the result's kind
      after run.started and what was handed in, if every payload handed in can be
      archived, and by none otherwise. */
  ghost predicate Ended(trace: seq<Event>, handed: seq<Event>, result: RunResult) {
    && (EventsEncode(handed) ==>
      && Closed(trace, TerminalKind(result.status)) && ArchivesThePast(trace, result)
      && Tells(trace[..|trace| - 1], handed))
    && (!EventsEncode(handed) ==> Tells(trace, handed))
  }

  // A run does what its plan says.
  ghost predicate Concludes(
    trace: seq<Event>, sink: nat -> Option<Error>, plan: Plan, result: Option<RunResult>, err: Option<Error>)
  {
    Ended(trace, plan.handed, plan.result) && result == Some(plan.result) && err == Returned(plan, sink)
  }

  // The status follows the cause, and the error returned still carries it.
  lemma {:induction false} CauseIsReported(plan: Plan, sink: nat -> Option<Error>, phase: string, cause: Error)
    requires plan.cause == Some(cause) && plan.result == Failure(phase, cause)
    ensures Holds(cause) ==> plan.result.status == StatusCancelled
    ensures !Holds(cause) ==> plan.result.status == StatusFailed
    ensures plan.result.message == if plan.result.status == StatusCancelled then CANCELLED_TEXT else ""
    ensures plan.result.error == plan.cause && Returned(plan, sink).Some?
    ensures Holds(cause) ==> Holds(Returned(plan, sink).value)
  {
    CancellationIsHeld(cause);
    if ClosingError(plan.handed, sink).Some? {
      JoinedHolds(cause, Wrapped("record terminal event", ClosingError(plan.handed, sink).value));
    }
  }

  lemma {:induction false} TellsIsOpen(trace: seq<Event>, handed: seq<Event>)
    requires Tells(trace, handed)
    ensures Open(trace) && |trace| == 1 + |handed|
    ensures forall k :: 0 <= k < |handed| ==> Says(trace[k + 1], handed[k])
  {
    if handed != [] {
      TellsIsOpen(trace[..|trace| - 1], handed[..|handed| - 1]);
      forall k | 0 <= k < |handed| ensures Says(trace[k + 1], handed[k]) {
        assert k < |handed| - 1 ==> Says(trace[..|trace| - 1][k + 1], handed[..|handed| - 1][k]);
      }
    }
  }

  // Whether a trace can be archived depends on what was handed in.
  lemma {:induction false} OpenEncodes(trace: seq<Event>, handed: seq<Event>)
    requires Tells(trace, handed)
    ensures NonTerminal(trace) == trace && |trace| == 1 + |handed| && Open(trace)
    ensures EventsEncode(trace) <==> EventsEncode(handed)
  {
    TellsIsOpen(trace, handed);
    NonTerminalIsAll(trace);
    if e :| e in handed && Kept(e) && e.payload.Malformed? {
      var k :| 0 <= k < |handed| && handed[k] == e;
      assert Says(trace[k + 1], handed[k]) && trace[k + 1] in trace;
    }
    if e :| e in trace && Kept(e) && e.payload.Malformed? {
      var k :| 0 <= k < |trace| && trace[k] == e;
      assert k > 0 && Says(trace[k - 1 + 1], handed[k - 1]);
      assert handed[k - 1] in handed;
    }
  }

  lemma {:induction false} TellsOneMore(trace: seq<Event>, handed: seq<Event>, e: Event, event: Event)
    requires Tells(trace, handed) && Ordinary(event.kind) && Says(e, event)
    ensures Tells(trace + [e], handed + [event])
  {
    assert (trace + [e])[..|trace|] == trace;
    assert (handed + [event])[..|handed|] == handed;
  }

  lemma {:induction false} TellsMore(trace: seq<Event>, later: seq<Event>, handed: seq<Event>, more: seq<Event>)
    requires Tells(trace, handed) && Adds(trace, later, more)
    requires forall k :: |trace| <= k < |later| ==> Ordinary(later[k].kind)
    ensures Tells(later, handed + more) && |later| == |trace| + |more|
  {
    if more == [] {
      assert handed + more == handed;
    } else {
      var n := |later| - 1;
      TellsMore(trace, later[..n], handed, more[..|more| - 1]);
      TellsOneMore(later[..n], handed + more[..|more| - 1], later[n], more[|more| - 1]);
      assert later[..n] + [later[n]] == later;
      assert handed + more[..|more| - 1] + [more[|more| - 1]] == handed + more;
    }
  }

  // The call that ends a run: its trace is closed, above all it archives.
  method RecordTerminal(j: RunJournal, terminal: Event, result: RunResult, now: int, ghost handed: seq<Event>)
    returns (err: Option<Error>)
    requires j.Valid() && Tells(j.emitted, handed) && EventsEncode(handed)
    requires terminal.kind == TerminalKind(result.status) && terminal.seqNo == 0
    requires terminal.payload == Report(result, j.emitted)
    modifies j
    ensures j.Valid() && Ended(j.emitted, handed, result) && err == j.sink(1 + |handed|)
  {
    ghost var front := j.emitted;
    OpenEncodes(front, handed);
    var records := j.Snapshot();
    err := j.Append(terminal, now);
    TellsIsOpen(front, handed);
    assert j.emitted[..|front|] == front;
  }

  // One more event of an open run.
  method RecordEvent(j: RunJournal, event: Event, now: int, ghost handed: seq<Event>) returns (err: Option<Error>)
    requires j.Valid() && Tells(j.emitted, handed) && Ordinary(event.kind)
    modifies j
    ensures j.Valid() && Tells(j.emitted, handed + [event]) && err == j.sink(1 + |handed|)
  {
    ghost var before := j.emitted;
    OpenEncodes(before, handed);
    err := j.Append(event, now);
    TellsOneMore(before, handed, j.emitted[|before|], event);
  }

  class Service {
    const executor: Executor

    constructor (executor: Executor)
      ensures this.executor == executor
    {
      this.executor := executor;
    }

    // What a run does, by everything outside the service.
    ghost function PlanOf(world: World, sink: nat -> Option<Error>): Plan {
      match world.prepared
      case Err(e) => FailedPlan([], "prepare", e)
      case Ok(request) =>
        var said := executor.Said(request);
        match executor.Outcome(request)
        case Err(e) => FailedPlan(said, "execute", e)
        case Ok(_) => FinalPlan(said, world.finalized, sink)
    }

    /** A plan without a cause has the finalizer's result; any other reports its cause.
        The error returned is the cause, or that and what the terminal met. */
    lemma {:induction false} PlanReports(world: World, sink: nat -> Option<Error>)
      ensures
        var plan := PlanOf(world, sink);
        && (plan.cause == None ==> world.finalized.Finalized? && plan.result == world.finalized.result)
        && (plan.cause.Some? ==>
          && plan.result.error == plan.cause && Returned(plan, sink).Some?
          && (Holds(plan.cause.value) ==> plan.result.status == StatusCancelled && Holds(Returned(plan, sink).value))
          && (!Holds(plan.cause.value) ==> plan.result.status == StatusFailed)
          && plan.result.message == if plan.result.status == StatusCancelled then CANCELLED_TEXT else "")
        && (EventsEncode(plan.handed) && sink(1 + |plan.handed|) == None ==> Returned(plan, sink) == plan.cause)
        && (EventsEncode(plan.handed) && sink(1 + |plan.handed|).Some? ==> Returned(plan, sink).Some?)
    {
      var plan := PlanOf(world, sink);
      if plan.cause.Some? {
        CauseIsReported(plan, sink, plan.result.phase, plan.cause.value);
      }
    }

    // The name a request gives to its runtime, or the default for none.
    function Named(request: ExecutionRequest): string {
      if request.runtime == "" then executor.defaultKind else request.runtime
    }

    /** Which phase fails a run, and with which error: the first of prepare, a missing
        id, a missing runtime, the runtime that is registered under the request's
        name, and finalize. */
    lemma {:induction false} PhasesReport(world: World, sink: nat -> Option<Error>)
      ensures
        var plan := PlanOf(world, sink);
        match world.prepared
        case Err(e) => plan.handed == [] && plan.cause == Some(e) && plan.result.phase == "prepare"
        case Ok(request) =>
          if request.executionID == "" || Named(request) !in executor.registry then
            && plan.handed == [] && plan.result.phase == "execute"
            && plan.cause.Some? && !Holds(plan.cause.value)
          else
            var rt := executor.registry[Named(request)];
            match rt.outcome
            case Err(e) =>
              plan.handed == Recorded(rt.events) && plan.cause == Some(e) && plan.result.phase == "execute"
            case Ok(_) =>
              && Recorded(rt.events) <= plan.handed
              && (world.finalized.FinalizeFailed? ==>
                && plan.handed == Recorded(rt.events) && plan.cause == Some(world.finalized.error)
                && plan.result.phase == "finalize")
              && (world.finalized.Incomplete? ==> plan.cause.Some? && plan.result.phase == "finalize")
    {
      var plan := PlanOf(world, sink);
      if plan.cause.Some? {
        CancellationIsHeld(plan.cause.value);
      }
      if world.prepared.Ok? && world.finalized.Finalized? {
        HandedOverMeans(sink, executor.Said(world.prepared.value), world.finalized.events);
      }
    }

    /** How a finalized run ends: with its first refused artifact event; or else, if all
        it was handed and its result encode, as the finalizer says; or else in the
        encoding. */
    lemma {:induction false} FinalizedRun(
      request: ExecutionRequest, final: RunResult, events: seq<Event>, sink: nat -> Option<Error>, k: nat)
      requires request.executionID != "" && Named(request) in executor.registry
      requires executor.registry[Named(request)].outcome.Ok?
      requires
        var said := |Recorded(executor.registry[Named(request)].events)|;
        said < k <= said + |events| + 1 && forall i :: said < i < k ==> sink(i) == None
      ensures
        var all := Recorded(executor.registry[Named(request)].events) + events;
        var plan := PlanOf(World(Ok(request), Finalized(final, events)), sink);
        if k <= |all| then
          sink(k).Some? ==>
            && plan.handed == all[..k] && plan.result.phase == "artifact_publish"
            && plan.cause.Some? && (Holds(plan.cause.value) <==> Holds(sink(k).value))
        else if final.encodes && EventsEncode(all) then plan == Plan(all, final, None)
        else
          && plan.handed == all && plan.result.phase == "terminal_encode"
          && plan.cause.Some? && !Holds(plan.cause.value)
    {
      var said := Recorded(executor.registry[Named(request)].events);
      HandedOverMeans(sink, said, events);
      var (handed, refusal) := HandedOver(sink, said, events);
      var plan := PlanOf(World(Ok(request), Finalized(final, events)), sink);
      if k <= |said + events| {
        if sink(k).Some? {
          assert |handed| == k && (said + events)[..k] == said + events[..k - |said|];
          CancellationIsHeld(sink(k).value);
        }
      } else {
        assert events[..|events|] == events;
      }
      if plan.cause.Some? {
        CancellationIsHeld(plan.cause.value);
      }
    }

    // All that the runtime and the finalizer of a world offer.
    function Offered(world: World): seq<Event> {
      match world.prepared
      case Err(_) => []
      case Ok(request) =>
        executor.Said(request) + if world.finalized.Finalized? then world.finalized.events else []
    }

    /** A run is handed a prefix of what is offered, all of it if nothing fails;
        so if all that is offered can be archived, its trace is closed. */
    lemma {:induction false} HandsInOrder(world: World, sink: nat -> Option<Error>)
      ensures
        var plan := PlanOf(world, sink);
        && plan.handed <= Offered(world)
        && (plan.cause == None ==> plan.handed == Offered(world))
        && (EventsEncode(Offered(world)) ==> EventsEncode(plan.handed))
    {
      var handed, offered := PlanOf(world, sink).handed, Offered(world);
      if world.prepared.Ok? && world.finalized.Finalized? {
        HandedOverMeans(sink, executor.Said(world.prepared.value), world.finalized.events);
      }
      assert forall e :: e in handed ==> e in offered;
    }

    // The terminal of a failed run, unless it cannot be encoded.
    method Close(j: RunJournal, result: RunResult, kind: EventType, now: int, ghost handed: seq<Event>)
      returns (terminalErr: Option<Error>)
      requires j.Valid() && Tells(j.emitted, handed) && result.encodes && kind == TerminalKind(result.status)
      modifies j
      ensures j.Valid() && Ended(j.emitted, handed, result) && terminalErr == ClosingError(handed, j.sink)
    {
      OpenEncodes(j.emitted, handed);
      var terminal := NewTerminalEvent(result, kind, j);
      if terminal == None {
        return Some(EncodeError);
      }
      terminalErr := RecordTerminal(j, terminal.value, result, now, handed);
    }

    /** Any failed phase: one terminal event, cancelled or failed by the cause,
        and the cause is still found in the returned error. `handed` is what the
        trace tells so far. */
    method FinishError(j: RunJournal, phase: string, cause: Error, now: int, ghost handed: seq<Event>)
      returns (result: Option<RunResult>, err: Option<Error>)
      requires j.Valid() && Tells(j.emitted, handed)
      modifies j
      ensures j.Valid() && Concludes(j.emitted, j.sink, FailedPlan(handed, phase, cause), result, err)
    {
      var status, message := StatusFailed, "";
      if IsCancellation(cause) {
        status, message := StatusCancelled, CANCELLED_TEXT;
      }
      var r := RunResult(status, message, Some(cause), phase, true);
      var kind := RunFailed;
      if status == StatusCancelled {
        kind := RunCancelled;
      }
      var terminalErr := Close(j, r, kind, now, handed);
      err := Some(if terminalErr.Some? then Joined([cause, Wrapped("record terminal event", terminalErr.value)])
                  else cause);
      result := Some(r);
    }

    // The terminal of a finalized run.
    method Complete(j: RunJournal, final: RunResult, now: int, ghost handed: seq<Event>)
      returns (result: Option<RunResult>, err: Option<Error>)
      requires j.Valid() && Tells(j.emitted, handed) && final.status == StatusCompleted
      modifies j
      ensures j.Valid() && Concludes(j.emitted, j.sink, CompletePlan(handed, final), result, err)
    {
      OpenEncodes(j.emitted, handed);
      var terminal := NewTerminalEvent(final, RunCompleted, j);
      if terminal == None {
        result, err := FinishError(j, "terminal_encode", EncodeError, now, handed);
        return;
      }
      var lastErr := RecordTerminal(j, terminal.value, final, now, handed);
      err := if lastErr.Some? then Some(Wrapped("record run.completed", lastErr.value)) else None;
      result := Some(final);
    }

    // The artifact events of a finalized run, up to the first the sink refuses.
    method HandOver(j: RunJournal, events: seq<Event>, now: int, ghost said: seq<Event>)
      returns (artifactErr: Option<Error>, ghost handed: seq<Event>)
      requires j.Valid() && Tells(j.emitted, said)
      requires forall e :: e in events ==> Ordinary(e.kind)
      modifies j
      ensures j.Valid() && Tells(j.emitted, handed)
      ensures HandedOver(j.sink, said, events) == (handed, artifactErr)
    {
      var i := 0;
      handed := said;
      while i < |events|
        invariant 0 <= i <= |events|
        invariant j.Valid() && Tells(j.emitted, handed)
        invariant HandedOver(j.sink, handed, events[i..]) == HandedOver(j.sink, said, events)
      {
        artifactErr := RecordEvent(j, events[i], now, handed);
        handed := handed + [events[i]];
        i := i + 1;
        if artifactErr.Some? {
          return;
        }
      }
      artifactErr := None;
    }

    /** The artifact events and the terminal of a finalized run. */
    method Publish(j: RunJournal, final: RunResult, events: seq<Event>, now: int, ghost said: seq<Event>)
      returns (result: Option<RunResult>, err: Option<Error>)
      requires j.Valid() && Tells(j.emitted, said)
      requires FinalizerContract(Finalized(final, events))
      modifies j
      ensures j.Valid() && Concludes(j.emitted, j.sink, PublishPlan(said, final, events, j.sink), result, err)
    {
      var artifactErr, handed := HandOver(j, events, now, said);
      if artifactErr.Some? {
        var wrapped := Wrapped("record artifact event", artifactErr.value);
        result, err := FinishError(j, "artifact_publish", wrapped, now, handed);
        return;
      }
      result, err := Complete(j, final, now, handed);
    }

    // Execute, finalize, publish.
    method ExecuteAndFinalize(j: RunJournal, request: ExecutionRequest, finalized: Finalization, now: int)
      returns (result: Option<RunResult>, err: Option<Error>)
      requires j.Valid() && Tells(j.emitted, [])
      requires forall name :: name in executor.registry ==> ObeysContract(executor.registry[name])
      requires FinalizerContract(finalized)
      modifies j
      ensures j.Valid() && Concludes(j.emitted, j.sink, PlanOf(World(Ok(request), finalized), j.sink), result, err)
    {
      var observer := new Observer(j, true);
      ghost var before := j.emitted;
      var execution, _, _ := executor.Execute(request, observer, now);
      ghost var said := executor.Said(request);
      assert [] + said == said;
      TellsMore(before, j.emitted, [], said);
      if execution.Err? {
        result, err := FinishError(j, "execute", execution.error, now, said);
        return;
      }
      match finalized {
        case FinalizeFailed(finalizeErr) =>
          result, err := FinishError(j, "finalize", finalizeErr, now, said);
        case Incomplete =>
          result, err := FinishError(j, "finalize", Simple("finalizer returned an incomplete result"), now, said);
        case Finalized(final, events) =>
          result, err := Publish(j, final, events, now, said);
      }
    }

    /** One run. After an accepted run.started the trace tells what the runtime
        and the finalizer handed in up to the first failure, and is closed by one
        terminal of the returned status exactly when all of that can be archived.
        The status and the returned error follow the failure of any phase. */
    method Run(j: RunJournal, world: World, startedAt: int, now: int)
      returns (result: Option<RunResult>, err: Option<Error>)
      requires j.Valid() && j.emitted == []
      requires forall name :: name in executor.registry ==> ObeysContract(executor.registry[name])
      requires FinalizerContract(world.finalized)
      modifies j
      ensures j.Valid()
      ensures j.sink(0).Some? ==> |j.emitted| == 1 && j.emitted[0].kind == RunStarted && result == None && err.Some?
      ensures j.sink(0) == None ==>
        var plan := PlanOf(world, j.sink);
        && Concludes(j.emitted, j.sink, plan, result, err)
        && (plan.cause == None ==> world.finalized.Finalized? && result == Some(world.finalized.result))
        && (plan.cause.Some? ==>
          && result.value.error == plan.cause && err.Some?
          && (Holds(plan.cause.value) ==> result.value.status == StatusCancelled && Holds(err.value))
          && (!Holds(plan.cause.value) ==> result.value.status == StatusFailed))
    {
      var startErr := j.Append(Event(j.runID, 0, RunStarted, startedAt, Absent, j.runID), now);
      if startErr.Some? {
        return None, Some(Wrapped("record run.started", startErr.value));
      }
      PlanReports(world, j.sink);
      assert Tells(j.emitted, []);
      if world.prepared.Err? {
        result, err := FinishError(j, "prepare", world.prepared.error, now, []);
        return;
      }
      assert world == World(Ok(world.prepared.value), world.finalized);
      result, err := ExecuteAndFinalize(j, world.prepared.value, world.finalized, now);
    }
  }

  /** An ended run has as many terminals as its handed payloads allow: one, and
      last, if all can be archived, and none otherwise. */
  lemma {:induction false} OneTerminalExactly(trace: seq<Event>, handed: seq<Event>, result: RunResult)
    requires Ended(trace, handed, result)
    ensures (exists k :: 0 <= k < |trace| && IsTerminal(trace[k].kind)) <==> EventsEncode(handed)
    ensures forall k :: 0 <= k < |trace| && IsTerminal(trace[k].kind) ==> k == |trace| - 1
    ensures EventsEncode(handed) ==>
      |trace| > 0 &&
      match result.status
      case StatusCompleted => trace[|trace| - 1].kind == RunCompleted
      case StatusFailed => trace[|trace| - 1].kind == RunFailed
      case StatusCancelled => trace[|trace| - 1].kind == RunCancelled
    ensures EventsEncode(handed) ==>
      |trace| > 0 &&
      trace[|trace| - 1].payload ==
      TerminalJson(TerminalPayload(result.status, result.message, result.error, Archive(trace[..|trace| - 1])))
  {
    var front := if EventsEncode(handed) then trace[..|trace| - 1] else trace;
    TellsIsOpen(front, handed);
    forall k | 0 <= k < |front| ensures !IsTerminal(trace[k].kind) {
      assert front[k] == trace[k];
    }
  }

  lemma {:induction false} RecordedOne(e: Event)
    requires !IsExecutionEvent(e.kind)
    ensures Recorded([e]) == [e]
  {
    assert [e][1..] == [];
  }

  lemma {:induction false} TellsOne(trace: seq<Event>, e: Event)
    requires Tells(trace, [e])
    ensures |trace| == 2 && trace[0].kind == RunStarted && Says(trace[1], e)
  {
    TellsIsOpen(trace, [e]);
    assert Says(trace[0 + 1], [e][0]);
  }

  /** A tool result that is not JSON leaves its run without a terminal: the
      runtime succeeds, the run fails, and nothing closes its trace. */
  method RunWithBrokenToolResult(now: int) returns (trace: seq<Event>, result: Option<RunResult>)
    ensures |trace| == 2 && trace[0].kind == RunStarted && trace[1].kind == ToolCallCompleted
    ensures result.Some? && result.value.status == StatusFailed && result.value.phase == "terminal_encode"
  {
    var broken := Event("", 0, ToolCallCompleted, 0, Malformed("{"), "");
    var rt := Runtime([broken], Ok(ExecutionResult("done")));
    var executor := new Executor(map["native" := rt], "native");
    var service := new Service(executor);
    var j := new RunJournal("run", (n: nat) => None);
    var request := ExecutionRequest("run", "");
    var final := Finalized(RunResult(StatusCompleted, "done", None, "", true), []);
    var world := World(Ok(request), final);
    ghost var plan := service.PlanOf(world, j.sink);
    RecordedOne(broken);
    assert plan.handed == [broken] + [];
    assert !EventsEncode(plan.handed) by { assert broken in plan.handed && Kept(broken); }
    var err;
    result, err := service.Run(j, world, now, now);
    trace := j.emitted;
    TellsOne(trace, broken);
  }

  lemma {:induction false} JoinedHolds(cause: Error, other: Error)
    ensures Holds(cause) ==> Holds(Joined([cause, other]))
  {
    if Holds(cause) {
      assert [0][1..] == [];
      HoldsBelow(Joined([cause, other]), 0, cause);
    }
  }
}
