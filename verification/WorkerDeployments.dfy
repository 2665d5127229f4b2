/**
 The worker deployment controller: one reconciler loop and any number of user
 status changes racing over the deployment rows and the scheduler.

 Every access to shared state (a row, the assistant table, the scheduler) is one
 atomic step; the program counters say where each party stands in its own code.
 Each foreign call carries a success flag, so a run covers every failure too.
 */
module WorkerDeployments {
  import opened Common

  type Id = nat

  datatype AssistantStatus = Draft | Active | Inactive | Archived | Unlisted

  datatype Status = Pending | Provisioning | Ready | Failed | Stopped

  datatype Row = Row(status: Status, lastStartedAt: Option<int>)

  // Milliseconds; the provisioning timeout is five minutes.
  const PROVISION_TIMEOUT: int := 300_000

  // What the reconciler is about to do with the deployment in hand.
  datatype Stage =
    | StopInactive
    | WriteStopped
    | ProbeReady
    | ProbeProvisioning
    | WriteStarted
    | StartWorker
    | ProbeStarted
    | Write(status: Status, started: bool)

  datatype Reconciler =
    | Idle
    | Pass(rest: seq<(Id, Row)>)
    | At(stage: Stage, id: Id, seen: Row, rest: seq<(Id, Row)>)

  // What a user request is about to do.
  datatype User =
    | SaveAssistant(id: Id, status: AssistantStatus)
    | FindToActivate(id: Id)
    | CreateRow(id: Id)
    | SaveActive(id: Id, read: Row)
    | FindToStop(id: Id)
    | SaveStopped(id: Id, read: Row)
    | FindToHalt(id: Id)
    | HaltWorker(id: Id)

  datatype State = State(
    now: int,
    assistants: map<Id, AssistantStatus>,
    rows: map<Id, Row>,
    running: set<Id>,
    reconciler: Reconciler,
    users: map<nat, User>)

  datatype Step =
    | Tick(elapsed: nat)
    | Crash(id: Id)
    | BeginPass(listing: seq<(Id, Row)>)
    | Reconcile(ok: bool)
    | BeginRequest(user: nat, id: Id, status: AssistantStatus)
    | Request(user: nat, ok: bool)

  ghost predicate Init(s: State) {
    s.rows == map[] && s.running == {} && s.reconciler == Idle && s.users == map[]
  }

  predicate Distinct(listing: seq<(Id, Row)>) {
    forall i, j :: 0 <= i < j < |listing| ==> listing[i].0 != listing[j].0
  }

  // A pass lists every row that is not stopped, in some order.
  ghost predicate IsListing(rows: map<Id, Row>, listing: seq<(Id, Row)>) {
    && Distinct(listing)
    && (forall e :: e in listing ==> e.0 in rows && rows[e.0] == e.1 && e.1.status != Stopped)
    && (forall d :: d in rows && rows[d].status != Stopped ==> (d, rows[d]) in listing)
  }

  ghost predicate Enabled(s: State, step: Step) {
    match step
    case Tick(_) => true
    case Crash(d) => true
    case BeginPass(listing) => s.reconciler.Idle? && IsListing(s.rows, listing)
    case Reconcile(_) => !s.reconciler.Idle?
    case BeginRequest(u, d, _) => u !in s.users && d in s.assistants
    case Request(u, _) => u in s.users
  }

  function SetStatus(rows: map<Id, Row>, d: Id, status: Status): map<Id, Row> {
    if d in rows then rows[d := rows[d].(status := status)] else rows
  }

  // The branch taken once the assistant row was read.
  function Branch(s: State, seen: Row, d: Id): Stage {
    if d !in s.assistants || s.assistants[d] != Active then StopInactive
    else match seen.status
      case Ready => ProbeReady
      case Provisioning => ProbeProvisioning
      case _ => WriteStarted
  }

  function ReconcileStep(s: State, ok: bool): State
    requires !s.reconciler.Idle?
  {
    match s.reconciler
    case Pass(rest) =>
      if rest == [] then s.(reconciler := Idle)
      else if !ok then s.(reconciler := Pass(rest[1..]))
      else s.(reconciler := At(Branch(s, rest[0].1, rest[0].0), rest[0].0, rest[0].1, rest[1..]))
    case At(stage, d, seen, rest) =>
      match stage
      case StopInactive =>
        if ok then s.(running := s.running - {d}, reconciler := At(WriteStopped, d, seen, rest))
        else s.(reconciler := Pass(rest))
      case WriteStopped =>
        s.(rows := if ok then SetStatus(s.rows, d, Stopped) else s.rows, reconciler := Pass(rest))
      case ProbeReady =>
        s.(reconciler := At(Write(if ok then Ready else Failed, false), d, seen, rest))
      case ProbeProvisioning =>
        var next :=
          if ok then Ready
          else if seen.lastStartedAt == None then Failed
          else if s.now - seen.lastStartedAt.value > PROVISION_TIMEOUT then Failed
          else Provisioning;
        s.(reconciler := At(Write(next, false), d, seen, rest))
      case WriteStarted =>
        // A failed bootstrap token has the effect of a failed write; a missing row
        // is updated without complaint.
        if ok then
          s.(rows := if d in s.rows then s.rows[d := Row(Provisioning, Some(s.now))] else s.rows,
             reconciler := At(StartWorker, d, seen, rest))
        else s.(reconciler := Pass(rest))
      case StartWorker =>
        if ok then s.(running := s.running + {d}, reconciler := At(ProbeStarted, d, seen, rest))
        else s.(reconciler := At(Write(Failed, false), d, seen, rest))
      case ProbeStarted =>
        s.(reconciler := At(Write(if ok then Ready else Provisioning, true), d, seen, rest))
      case Write(status, _) =>
        s.(rows := if ok then SetStatus(s.rows, d, status) else s.rows, reconciler := Pass(rest))
  }

  // The user either moves on to `next` or leaves.
  function Goto(s: State, u: nat, next: Option<User>): map<nat, User> {
    match next
    case Some(pc) => s.users[u := pc]
    case None => s.users - {u}
  }

  function RequestStep(s: State, u: nat, ok: bool): State
    requires u in s.users
  {
    match s.users[u]
    case SaveAssistant(d, status) =>
      if !ok then s.(users := Goto(s, u, None))
      else
        var next := match status
          case Active => Some(FindToActivate(d))
          case Unlisted => None
          case _ => Some(FindToStop(d));
        s.(assistants := s.assistants[d := status], users := Goto(s, u, next))
    case FindToActivate(d) =>
      s.(users := Goto(s, u,
        if !ok then None else if d in s.rows then Some(SaveActive(d, s.rows[d])) else Some(CreateRow(d))))
    case CreateRow(d) =>
      // The assistant id is a unique key of the deployment table.
      if !ok || d in s.rows then s.(users := Goto(s, u, None))
      else s.(rows := s.rows[d := Row(Pending, None)],
              users := Goto(s, u, Some(SaveActive(d, Row(Pending, None)))))
    case SaveActive(d, read) =>
      s.(rows := if ok then s.rows[d := read.(status := Pending)] else s.rows, users := Goto(s, u, None))
    case FindToStop(d) =>
      s.(users := Goto(s, u,
        if !ok then None else if d in s.rows then Some(SaveStopped(d, s.rows[d])) else Some(FindToHalt(d))))
    case SaveStopped(d, read) =>
      if ok then s.(rows := s.rows[d := read.(status := Stopped)], users := Goto(s, u, Some(FindToHalt(d))))
      else s.(users := Goto(s, u, None))
    case FindToHalt(d) =>
      s.(users := Goto(s, u, if ok && d in s.rows then Some(HaltWorker(d)) else None))
    case HaltWorker(d) =>
      s.(running := if ok then s.running - {d} else s.running, users := Goto(s, u, None))
  }

  function Apply(s: State, step: Step): State
    requires step.Reconcile? ==> !s.reconciler.Idle?
    requires step.Request? ==> step.user in s.users
  {
    match step
    case Tick(elapsed) => s.(now := s.now + elapsed)
    case Crash(d) => s.(running := s.running - {d})
    case BeginPass(listing) => s.(reconciler := Pass(listing))
    case Reconcile(ok) => ReconcileStep(s, ok)
    case BeginRequest(u, d, status) => s.(users := s.users[u := SaveAssistant(d, status)])
    case Request(u, ok) => RequestStep(s, u, ok)
  }

  // ---------------------------------------------------------------- runs

  ghost predicate ValidRun(s: State, steps: seq<Step>)
    decreases |steps|
  {
    steps == [] || (Enabled(s, steps[0]) && ValidRun(Apply(s, steps[0]), steps[1..]))
  }

  // The state after the first k steps.
  function StateAt(s: State, steps: seq<Step>, k: nat): State
    requires k <= |steps| && ValidRun(s, steps)
    decreases k
  {
    if k == 0 then s else StateAt(Apply(s, steps[0]), steps[1..], k - 1)
  }

  lemma {:induction false} StepOfRun(s: State, steps: seq<Step>, k: nat)
    requires ValidRun(s, steps) && k < |steps|
    ensures Enabled(StateAt(s, steps, k), steps[k])
    ensures StateAt(s, steps, k + 1) == Apply(StateAt(s, steps, k), steps[k])
    decreases k
  {
    if k > 0 {
      StepOfRun(Apply(s, steps[0]), steps[1..], k - 1);
    }
  }

  // ------------------------------------------- no orphaned running worker

  predicate Orphan(s: State, d: Id) {
    d in s.running && d in s.rows && s.rows[d].status == Stopped
  }

  predicate Quiescent(s: State) {
    s.reconciler == Idle && s.users == map[]
  }

  // The reconciler started the worker and still owes it a status write.
  predicate ReconcilerOwes(s: State, d: Id) {
    && s.reconciler.At? && s.reconciler.id == d
    && (s.reconciler.stage.ProbeStarted? || (s.reconciler.stage.Write? && s.reconciler.stage.started))
  }

  // A user wrote "stopped" and still owes the scheduler a Stop.
  predicate UserOwes(pc: User, d: Id) {
    (pc.FindToHalt? || pc.HaltWorker?) && pc.id == d
  }

  /** A debt to d that a failing call drops: the status write after a Start, or
      a user's way from its row write to Stop. */
  predicate DropsDebt(s: State, step: Step, d: Id) {
    match step
    case Reconcile(ok) => !ok && s.reconciler.At? && s.reconciler.stage.Write? && ReconcilerOwes(s, d)
    case Request(u, ok) => !ok && u in s.users && UserOwes(s.users[u], d)
    case _ => false
  }

  ghost predicate SafeAt(s: State, d: Id) {
    && (Orphan(s, d) ==> ReconcilerOwes(s, d) || exists u :: u in s.users && UserOwes(s.users[u], d))
    && (s.reconciler.At? && s.reconciler.id == d && s.reconciler.stage == WriteStopped ==> d !in s.running)
    && (s.reconciler.At? && s.reconciler.stage.Write? ==> s.reconciler.stage.status != Stopped)
  }

  lemma {:induction false} SafeByRequest(s: State, step: Step, d: Id)
    requires SafeAt(s, d) && Enabled(s, step) && !DropsDebt(s, step, d) && step.Request?
    ensures SafeAt(Apply(s, step), d)
  {
    var t := Apply(s, step);
    if Orphan(t, d) && !ReconcilerOwes(t, d) {
      if UserOwes(s.users[step.user], d) {
        assert Orphan(s, d);
        assert step.user in t.users && UserOwes(t.users[step.user], d);
      } else if s.users[step.user].SaveStopped? && s.users[step.user].id == d && step.ok {
        assert step.user in t.users && UserOwes(t.users[step.user], d);
      } else {
        assert Orphan(s, d) && !ReconcilerOwes(s, d);
        var u :| u in s.users && UserOwes(s.users[u], d);
        assert u in t.users && UserOwes(t.users[u], d);
      }
    }
  }

  lemma {:induction false} SafeByOthers(s: State, step: Step, d: Id)
    requires SafeAt(s, d) && Enabled(s, step) && !DropsDebt(s, step, d) && !step.Request?
    ensures SafeAt(Apply(s, step), d)
  {
    var t := Apply(s, step);
    if Orphan(t, d) && !ReconcilerOwes(t, d) {
      assert Orphan(s, d) && !ReconcilerOwes(s, d);
      var u :| u in s.users && UserOwes(s.users[u], d);
      assert u in t.users && UserOwes(t.users[u], d);
    }
  }

  lemma {:induction false} SafeStep(s: State, step: Step, d: Id)
    requires SafeAt(s, d) && Enabled(s, step) && !DropsDebt(s, step, d)
    ensures SafeAt(Apply(s, step), d)
  {
    if step.Request? {
      SafeByRequest(s, step, d);
    } else {
      SafeByOthers(s, step, d);
    }
  }

  lemma {:induction false} SafeRun(s: State, steps: seq<Step>, d: Id, k: nat)
    requires ValidRun(s, steps) && SafeAt(s, d) && k <= |steps|
    requires forall i :: 0 <= i < k ==> !DropsDebt(StateAt(s, steps, i), steps[i], d)
    ensures SafeAt(StateAt(s, steps, k), d)
    decreases k
  {
    if k > 0 {
      SafeRun(s, steps, d, k - 1);
      StepOfRun(s, steps, k - 1);
      SafeStep(StateAt(s, steps, k - 1), steps[k - 1], d);
    }
  }

  /** Whatever the interleaving and whatever else fails, once everybody is done
      no worker runs behind a row that says stopped, unless some call dropped
      the debt of its own party. */
  lemma {:induction false} NoOrphanWhenQuiescent(s: State, steps: seq<Step>, d: Id, k: nat)
    requires Init(s) && ValidRun(s, steps) && k <= |steps|
    requires forall i :: 0 <= i < k ==> !DropsDebt(StateAt(s, steps, i), steps[i], d)
    requires Quiescent(StateAt(s, steps, k))
    ensures !Orphan(StateAt(s, steps, k), d)
  {
    SafeRun(s, steps, d, k);
  }

  // A run extended at its front, with the state it ends in.
  ghost predicate Leads(s: State, steps: seq<Step>, t: State) {
    ValidRun(s, steps) && StateAt(s, steps, |steps|) == t
  }

  lemma {:induction false} Prepend(s: State, step: Step, rest: seq<Step>, t: State)
    requires Enabled(s, step) && Leads(Apply(s, step), rest, t)
    ensures Leads(s, [step] + rest, t)
  {
    assert ([step] + rest)[1..] == rest;
  }

  lemma {:induction false} Chain(s: State, a: seq<Step>, t: State, b: seq<Step>, u: State)
    requires Leads(s, a, t) && Leads(t, b, u)
    ensures Leads(s, a + b, u)
    decreases |a|
  {
    if a == [] {
      assert a + b == b;
    } else {
      Chain(Apply(s, a[0]), a[1..], t, b, u);
      Prepend(s, a[0], a[1..] + b, u);
      assert a + b == [a[0]] + (a[1..] + b);
    }
  }

  lemma {:induction false} Extend(s: State, steps: seq<Step>, t: State, step: Step)
    returns (longer: seq<Step>, u: State)
    requires Leads(s, steps, t) && Enabled(t, step)
    ensures longer == steps + [step] && u == Apply(t, step) && Leads(s, longer, u)
  {
    longer, u := steps + [step], Apply(t, step);
    assert Leads(u, [], u);
    Prepend(t, step, [], u);
    Chain(s, steps, t, [step], u);
  }

  const START := State(0, map[0 := Active], map[], {}, Idle, map[])
  const ROW := Row(Pending, None)

  // User 0 activates assistant 0, which creates its row.
  lemma {:induction false} Activated() returns (steps: seq<Step>, t: State)
    ensures Leads(START, steps, t)
    ensures t == START.(rows := map[0 := ROW])
  {
    steps, t := [], START;
    steps, t := Extend(START, steps, t, BeginRequest(0, 0, Active));
    steps, t := Extend(START, steps, t, Request(0, true));
    steps, t := Extend(START, steps, t, Request(0, true));
    steps, t := Extend(START, steps, t, Request(0, true));
    steps, t := Extend(START, steps, t, Request(0, true));
    assert t.users == map[];
  }

  // A pass then reaches the Start of that deployment.
  lemma {:induction false} AboutToStart() returns (steps: seq<Step>, t: State)
    ensures Leads(START, steps, t)
    ensures t == START.(rows := map[0 := Row(Provisioning, Some(0))],
                        reconciler := At(StartWorker, 0, ROW, []))
  {
    steps, t := Activated();
    assert IsListing(t.rows, [(0, ROW)]);
    steps, t := Extend(START, steps, t, BeginPass([(0, ROW)]));
    steps, t := Extend(START, steps, t, Reconcile(true));
    assert t.reconciler == At(WriteStarted, 0, ROW, []);
    steps, t := Extend(START, steps, t, Reconcile(true));
    assert t.rows == map[0 := Row(Provisioning, Some(0))];
  }

  // User 1 deactivates assistant 0: its row says stopped, its Stop is still to come.
  lemma {:induction false} Deactivated(before: seq<Step>, s: State) returns (steps: seq<Step>, t: State)
    requires Leads(START, before, s)
    requires s.users == map[] && s.assistants == START.assistants && 0 in s.rows
    ensures Leads(START, steps, t)
    ensures t == s.(assistants := map[0 := Inactive], rows := s.rows[0 := s.rows[0].(status := Stopped)],
                    users := map[1 := HaltWorker(0)])
  {
    steps, t := Extend(START, before, s, BeginRequest(1, 0, Inactive));
    steps, t := Extend(START, steps, t, Request(1, true));
    assert t == s.(assistants := map[0 := Inactive], users := map[1 := FindToStop(0)]);
    steps, t := Extend(START, steps, t, Request(1, true));
    steps, t := Extend(START, steps, t, Request(1, true));
    assert t.users == map[1 := FindToHalt(0)];
    steps, t := Extend(START, steps, t, Request(1, true));
  }

  /** The status write after Start must succeed: a user stops the assistant while
      the worker is starting, the write fails, and the worker is orphaned. */
  lemma {:induction false} LostStatusWriteOrphans() returns (steps: seq<Step>, t: State)
    ensures Leads(START, steps, t) && Quiescent(t) && Orphan(t, 0)
  {
    steps, t := AboutToStart();
    steps, t := Deactivated(steps, t);
    steps, t := Extend(START, steps, t, Request(1, true));
    assert t.users == map[];
    steps, t := Extend(START, steps, t, Reconcile(true));
    assert t.reconciler == At(ProbeStarted, 0, ROW, []);
    steps, t := Extend(START, steps, t, Reconcile(true));
    steps, t := Extend(START, steps, t, Reconcile(false));
    assert t.reconciler == Pass([]);
    steps, t := Extend(START, steps, t, Reconcile(true));
  }

  /** The user's Stop must succeed: its row already says stopped, no pass lists
      it again, and the worker keeps running. */
  lemma {:induction false} LostStopOrphans() returns (steps: seq<Step>, t: State)
    ensures Leads(START, steps, t) && Quiescent(t) && Orphan(t, 0)
  {
    steps, t := AboutToStart();
    steps, t := Extend(START, steps, t, Reconcile(true));
    steps, t := Extend(START, steps, t, Reconcile(true));
    steps, t := Extend(START, steps, t, Reconcile(true));
    assert t.reconciler == Pass([]) && t.rows == map[0 := Row(Ready, Some(0))];
    steps, t := Extend(START, steps, t, Reconcile(true));
    steps, t := Deactivated(steps, t);
    steps, t := Extend(START, steps, t, Request(1, false));
    assert t.users == map[];
  }

  // ------------------------------------------------ spacing of start times

  predicate RecordsStart(s: State, step: Step, d: Id) {
    && step.Reconcile? && step.ok && d in s.rows
    && s.reconciler.At? && s.reconciler.id == d && s.reconciler.stage.WriteStarted?
  }

  /** The steps after which d may be started again at once: a user saved its row,
      it became ready, or the scheduler refused the Start. */
  predicate Releases(s: State, step: Step, d: Id) {
    match step
    case Request(u, ok) =>
      ok && u in s.users && (s.users[u].SaveActive? || s.users[u].SaveStopped?) && s.users[u].id == d
    case Reconcile(ok) =>
      && s.reconciler.At? && s.reconciler.id == d
      && (if ok then s.reconciler.stage.Write? && s.reconciler.stage.status == Ready
          else s.reconciler.stage == StartWorker)
    case _ => false
  }

  predicate TimedOut(s: State, since: int) {
    s.now - since > PROVISION_TIMEOUT
  }

  // Each deployment is visited at most once in a pass, and users are past the
  // existence check only for rows that exist.
  predicate WellQueued(s: State) {
    match s.reconciler
    case Idle => true
    case Pass(rest) => Distinct(rest)
    case At(_, d, seen, rest) => Distinct([(d, seen)] + rest)
  }

  function Queue(s: State): seq<(Id, Row)> {
    if s.reconciler.Idle? then [] else s.reconciler.rest
  }

  // What holds from the moment d's start was recorded at time `since`.
  predicate Held(s: State, d: Id, since: int) {
    && d in s.rows && s.rows[d].lastStartedAt == Some(since)
    && s.rows[d].status !in {Pending, Ready}
    && (s.rows[d].status == Failed ==> TimedOut(s, since))
    && (forall e :: e in Queue(s) && e.0 == d ==> e.1 == s.rows[d] && e.1.status != Stopped)
    && (s.reconciler.At? && s.reconciler.id == d ==>
        match s.reconciler.stage
        case ProbeReady => false
        case ProbeProvisioning => s.reconciler.seen.lastStartedAt == Some(since)
        case WriteStarted => TimedOut(s, since)
        case Write(status, _) => status in {Provisioning, Ready} || (status == Failed && TimedOut(s, since))
        case _ => true)
  }

  lemma {:induction false} WellQueuedStep(s: State, step: Step)
    requires WellQueued(s) && Enabled(s, step)
    ensures WellQueued(Apply(s, step))
  {
    if step.Reconcile? {
      match s.reconciler
      case Pass(rest) =>
        if rest != [] { assert rest == [(rest[0].0, rest[0].1)] + rest[1..]; }
      case At(_, d, seen, rest) =>
        forall i, j | 0 <= i < j < |rest| ensures rest[i].0 != rest[j].0 {
          assert rest[i] == ([(d, seen)] + rest)[i + 1] && rest[j] == ([(d, seen)] + rest)[j + 1];
        }
    }
  }

  lemma {:induction false} HoldsOnceRecorded(s: State, step: Step, d: Id)
    requires WellQueued(s) && Enabled(s, step) && RecordsStart(s, step, d)
    ensures Held(Apply(s, step), d, s.now)
  {
    var (seen, rest) := (s.reconciler.seen, s.reconciler.rest);
    forall e | e in rest ensures e.0 != d {
      var k :| 0 <= k < |rest| && rest[k] == e;
      assert ([(d, seen)] + rest)[0].0 == d && ([(d, seen)] + rest)[k + 1] == e;
    }
  }

  // Users, and the start of a pass.
  lemma {:induction false} HeldByOthers(s: State, step: Step, d: Id, since: int)
    requires Held(s, d, since) && WellQueued(s) && Enabled(s, step) && !step.Reconcile?
    requires !Releases(s, step, d)
    ensures Held(Apply(s, step), d, since)
  {
    assert forall e :: e in Queue(Apply(s, step)) ==> step.BeginPass? || e in Queue(s);
  }

  lemma {:induction false} HeldByNextRow(s: State, step: Step, d: Id, since: int)
    requires Held(s, d, since) && WellQueued(s) && Enabled(s, step) && step.Reconcile? && s.reconciler.Pass?
    ensures Held(Apply(s, step), d, since)
  {
    if s.reconciler.rest != [] {
      assert s.reconciler.rest[0] in Queue(s);
    }
    assert forall e :: e in Queue(Apply(s, step)) ==> e in Queue(s);
  }

  lemma {:induction false} HeldByStage(s: State, step: Step, d: Id, since: int)
    requires Held(s, d, since) && WellQueued(s) && Enabled(s, step) && step.Reconcile? && s.reconciler.At?
    requires !Releases(s, step, d) && !RecordsStart(s, step, d)
    ensures Held(Apply(s, step), d, since)
  {
    if s.reconciler.id == d {
      var (seen, rest) := (s.reconciler.seen, s.reconciler.rest);
      forall e | e in rest ensures e.0 != d {
        var k :| 0 <= k < |rest| && rest[k] == e;
        assert ([(d, seen)] + rest)[0].0 == d && ([(d, seen)] + rest)[k + 1] == e;
      }
    }
    assert forall e :: e in Queue(Apply(s, step)) ==> e in Queue(s);
  }

  lemma {:induction false} HeldStep(s: State, step: Step, d: Id, since: int)
    requires Held(s, d, since) && WellQueued(s) && Enabled(s, step)
    requires !Releases(s, step, d) && !RecordsStart(s, step, d)
    ensures Held(Apply(s, step), d, since)
  {
    if !step.Reconcile? {
      HeldByOthers(s, step, d, since);
    } else if s.reconciler.Pass? {
      HeldByNextRow(s, step, d, since);
    } else if s.reconciler.At? {
      HeldByStage(s, step, d, since);
    }
  }

  lemma {:induction false} HeldRun(s: State, steps: seq<Step>, d: Id, i: nat, k: nat)
    requires ValidRun(s, steps) && WellQueued(s) && i < k <= |steps|
    requires RecordsStart(StateAt(s, steps, i), steps[i], d)
    requires forall m :: i < m < k ==>
      !Releases(StateAt(s, steps, m), steps[m], d) && !RecordsStart(StateAt(s, steps, m), steps[m], d)
    ensures Held(StateAt(s, steps, k), d, StateAt(s, steps, i).now)
    decreases k
  {
    WellQueuedRun(s, steps, k - 1);
    StepOfRun(s, steps, k - 1);
    if i == k - 1 {
      HoldsOnceRecorded(StateAt(s, steps, i), steps[i], d);
    } else {
      HeldRun(s, steps, d, i, k - 1);
      HeldStep(StateAt(s, steps, k - 1), steps[k - 1], d, StateAt(s, steps, i).now);
    }
  }

  lemma {:induction false} WellQueuedRun(s: State, steps: seq<Step>, k: nat)
    requires ValidRun(s, steps) && WellQueued(s) && k <= |steps|
    ensures WellQueued(StateAt(s, steps, k))
    decreases k
  {
    if k > 0 {
      WellQueuedRun(s, steps, k - 1);
      StepOfRun(s, steps, k - 1);
      WellQueuedStep(StateAt(s, steps, k - 1), steps[k - 1]);
    }
  }

  /** Two recorded starts of one deployment lie more than the provisioning timeout
      apart whenever nothing in between released it. */
  lemma {:induction false} StartsAreSpaced(s: State, steps: seq<Step>, d: Id, i: nat, j: nat)
    requires Init(s) && ValidRun(s, steps) && i < j < |steps|
    requires RecordsStart(StateAt(s, steps, i), steps[i], d)
    requires RecordsStart(StateAt(s, steps, j), steps[j], d)
    requires forall m :: i < m < j ==> !Releases(StateAt(s, steps, m), steps[m], d)
    ensures StateAt(s, steps, j).now - StateAt(s, steps, i).now > PROVISION_TIMEOUT
  {
    // Take the last start before j: it is already spaced from j, and time never runs back.
    var p := i;
    while exists m :: p < m < j && RecordsStart(StateAt(s, steps, m), steps[m], d)
      invariant i <= p < j && RecordsStart(StateAt(s, steps, p), steps[p], d)
      decreases j - p
    {
      var m :| p < m < j && RecordsStart(StateAt(s, steps, m), steps[m], d);
      p := m;
    }
    HeldRun(s, steps, d, p, j);
    TimeMoves(s, steps, i, p);
  }

  lemma {:induction false} TimeMoves(s: State, steps: seq<Step>, i: nat, k: nat)
    requires ValidRun(s, steps) && i <= k <= |steps|
    ensures StateAt(s, steps, i).now <= StateAt(s, steps, k).now
    decreases k
  {
    if i < k {
      TimeMoves(s, steps, i, k - 1);
      StepOfRun(s, steps, k - 1);
    }
  }
}
