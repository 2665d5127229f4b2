/**
 The reconciler and the user request as code, over the tables and the scheduler.
 Between any two accesses to shared state the rest of the system may take any
 number of steps. Each access is proved to be the step that WorkerDeployments
 prescribes, so whatever holds of the step system holds of this code.
 */
module DeploymentController {
  import opened Common
  import opened WorkerDeployments

  // Who executes a step; None is the environment.
  datatype Party = Environment | TheReconciler | TheUser(user: nat)

  function Mover(step: Step): Party {
    match step
    case BeginPass(_) => TheReconciler
    case Reconcile(_) => TheReconciler
    case BeginRequest(u, _, _) => TheUser(u)
    case Request(u, _) => TheUser(u)
    case _ => Environment
  }

  // The answers that a party's own accesses got, in order.
  function Answers(me: Party, steps: seq<Step>): seq<bool> {
    if steps == [] then []
    else
      var n := |steps| - 1;
      Answers(me, steps[..n]) +
      if Mover(steps[n]) == me && (steps[n].Reconcile? || steps[n].Request?) then [steps[n].ok] else []
  }

  // A run from s to t in which a party's accesses got exactly these answers.
  ghost predicate Reaches(me: Party, s: State, t: State, answers: seq<bool>) {
    exists steps :: Leads(s, steps, t) && Answers(me, steps) == answers
  }

  ghost predicate OthersReach(s: State, t: State, me: Party) {
    exists steps :: Leads(s, steps, t) && forall k :: 0 <= k < |steps| ==> Mover(steps[k]) != me
  }

  lemma {:induction false} OthersKeepReconciler(s: State, steps: seq<Step>, t: State)
    requires Leads(s, steps, t)
    requires forall k :: 0 <= k < |steps| ==> Mover(steps[k]) != TheReconciler
    ensures t.reconciler == s.reconciler
    decreases |steps|
  {
    if steps != [] {
      OthersKeepReconciler(Apply(s, steps[0]), steps[1..], t);
    }
  }

  lemma {:induction false} OneKeepsUser(s: State, step: Step, u: nat)
    requires Enabled(s, step) && u in s.users && Mover(step) != TheUser(u)
    ensures u in Apply(s, step).users && Apply(s, step).users[u] == s.users[u]
  {
  }

  lemma {:induction false} OthersKeepUser(s: State, steps: seq<Step>, t: State, u: nat)
    requires Leads(s, steps, t) && u in s.users
    requires forall k :: 0 <= k < |steps| ==> Mover(steps[k]) != TheUser(u)
    ensures u in t.users && t.users[u] == s.users[u]
    decreases |steps|
  {
    if steps != [] {
      OneKeepsUser(s, steps[0], u);
      OthersKeepUser(Apply(s, steps[0]), steps[1..], t, u);
    }
  }

  lemma {:induction false} AnswersAppend(me: Party, a: seq<Step>, b: seq<Step>)
    ensures Answers(me, a + b) == Answers(me, a) + Answers(me, b)
    decreases |b|
  {
    if b == [] {
      assert a + b == a;
    } else {
      var n := |b| - 1;
      AnswersAppend(me, a, b[..n]);
      assert (a + b)[..|a| + n] == a + b[..n];
    }
  }

  lemma {:induction false} OthersAnswerNothing(me: Party, steps: seq<Step>)
    requires forall k :: 0 <= k < |steps| ==> Mover(steps[k]) != me
    ensures Answers(me, steps) == []
    decreases |steps|
  {
    if steps != [] {
      OthersAnswerNothing(me, steps[..|steps| - 1]);
    }
  }

  lemma {:induction false} Stays(me: Party, s: State)
    ensures Reaches(me, s, s, [])
  {
    assert Leads(s, [], s);
  }

  lemma {:induction false} ReachesOn(me: Party, s: State, t: State, u: State, before: seq<bool>, after: seq<bool>)
    requires Reaches(me, s, t, before) && Reaches(me, t, u, after)
    ensures Reaches(me, s, u, before + after)
  {
    var a :| Leads(s, a, t) && Answers(me, a) == before;
    var b :| Leads(t, b, u) && Answers(me, b) == after;
    Chain(s, a, t, b, u);
    AnswersAppend(me, a, b);
  }

  lemma {:induction false} OthersReachOn(me: Party, s: State, t: State, u: State, answers: seq<bool>)
    requires Reaches(me, s, t, answers) && OthersReach(t, u, me)
    ensures Reaches(me, s, u, answers)
  {
    var b :| Leads(t, b, u) && forall k :: 0 <= k < |b| ==> Mover(b[k]) != me;
    OthersAnswerNothing(me, b);
    ReachesOn(me, s, t, u, answers, []);
    assert answers + [] == answers;
  }

  // An access of the party's own, which got `answer`.
  lemma {:induction false} OneStep(me: Party, from: State, s: State, step: Step, answers: seq<bool>, answer: bool)
    requires Reaches(me, from, s, answers) && Enabled(s, step) && Mover(step) == me
    requires (step.Reconcile? || step.Request?) && step.ok == answer
    ensures Reaches(me, from, Apply(s, step), answers + [answer])
  {
    var steps :| Leads(from, steps, s) && Answers(me, steps) == answers;
    var longer, t := Extend(from, steps, s, step);
    assert longer[..|steps|] == steps;
  }

  lemma {:induction false} OneStart(me: Party, from: State, s: State, step: Step, answers: seq<bool>)
    requires Reaches(me, from, s, answers) && Enabled(s, step)
    requires step.BeginPass? || step.BeginRequest?
    ensures Reaches(me, from, Apply(s, step), answers)
  {
    var steps :| Leads(from, steps, s) && Answers(me, steps) == answers;
    var longer, t := Extend(from, steps, s, step);
    assert longer[..|steps|] == steps;
    assert answers + [] == answers;
  }

  /** The tables, the scheduler and the clock as the service meets them. Ghost
      state says where each party stands in its own code. */
  class Server {
    var now: int
    var assistants: map<Id, AssistantStatus>
    var rows: map<Id, Row>
    var running: set<Id>
    ghost var reconciler: Reconciler
    ghost var users: map<nat, User>
    // What the calls of the operation at hand have answered so far.
    ghost var heard: seq<bool>

    ghost function View(): State
      reads this
    {
      State(now, assistants, rows, running, reconciler, users)
    }

    // Everybody else runs for a while.
    method Yield(ghost me: Party)
      modifies this
      ensures OthersReach(old(View()), View(), me) && heard == old(heard)
    {
      assert Leads(View(), [], View());
    }

    // Before the reconciler's next access.
    method ReconcilerWaits(ghost from: State) returns (ghost before: State)
      requires Reaches(TheReconciler, from, View(), heard)
      modifies this
      ensures before == View() && Reaches(TheReconciler, from, before, heard)
      ensures reconciler == old(reconciler) && heard == old(heard)
    {
      ghost var mid := View();
      Yield(TheReconciler);
      before := View();
      ghost var steps :| Leads(mid, steps, before) && forall k :: 0 <= k < |steps| ==> Mover(steps[k]) != TheReconciler;
      OthersKeepReconciler(mid, steps, before);
      OthersReachOn(TheReconciler, from, mid, before, heard);
    }

    // Before a user request's next access.
    method UserWaits(ghost from: State, ghost u: nat) returns (ghost before: State)
      requires Reaches(TheUser(u), from, View(), heard) && u in users
      modifies this
      ensures before == View() && Reaches(TheUser(u), from, before, heard)
      ensures u in users && users[u] == old(users)[u] && heard == old(heard)
    {
      ghost var mid := View();
      Yield(TheUser(u));
      before := View();
      ghost var steps :| Leads(mid, steps, before) && forall k :: 0 <= k < |steps| ==> Mover(steps[k]) != TheUser(u);
      OthersKeepUser(mid, steps, before, u);
      OthersReachOn(TheUser(u), from, mid, before, heard);
    }

    // ------------------------------------------- the database and the scheduler

    method GetDigitalAssistantByID(id: Id) returns (ok: bool, status: Option<AssistantStatus>)
      modifies this`heard
      ensures status == if ok && id in assistants then Some(assistants[id]) else None
      ensures heard == old(heard) + [ok]
    {
      ok := *;
      status := if ok && id in assistants then Some(assistants[id]) else None;
      heard := heard + [ok];
    }

    method UpdateDigitalAssistant(id: Id, status: AssistantStatus) returns (ok: bool)
      modifies this`assistants, this`heard
      ensures assistants == if ok then old(assistants)[id := status] else old(assistants)
      ensures heard == old(heard) + [ok]
    {
      ok := *;
      if ok {
        assistants := assistants[id := status];
      }
      heard := heard + [ok];
    }

    // Every deployment that is not stopped; the table's order is not modelled.
    method ListWorkerDeployments() returns (ok: bool, deployments: seq<(Id, Row)>)
      ensures ok ==> IsListing(rows, deployments)
    {
      ok, deployments := *, [];
      var todo: set<Id> := set d | d in rows && rows[d].status != Stopped;
      while todo != {}
        invariant forall d :: d in todo ==> d in rows && rows[d].status != Stopped
        invariant forall e :: e in deployments ==>
          e.0 in rows && rows[e.0] == e.1 && e.1.status != Stopped && e.0 !in todo
        invariant forall d :: d in rows && rows[d].status != Stopped ==> d in todo || (d, rows[d]) in deployments
        invariant Distinct(deployments)
        decreases |todo|
      {
        var d :| d in todo;
        forall k | 0 <= k < |deployments| ensures deployments[k].0 != d {
          assert deployments[k] in deployments;
        }
        todo := todo - {d};
        deployments := deployments + [(d, rows[d])];
      }
    }

    method GetWorkerDeploymentByAssistantID(id: Id) returns (ok: bool, deployment: Option<Row>)
      modifies this`heard
      ensures deployment == if ok && id in rows then Some(rows[id]) else None
      ensures heard == old(heard) + [ok]
    {
      ok := *;
      deployment := if ok && id in rows then Some(rows[id]) else None;
      heard := heard + [ok];
    }

    // The assistant id is a unique key of the deployment table.
    method CreateWorkerDeployment(id: Id, deployment: Row) returns (ok: bool)
      modifies this`rows, this`heard
      ensures ok ==> id !in old(rows)
      ensures rows == if ok then old(rows)[id := deployment] else old(rows)
      ensures heard == old(heard) + [ok]
    {
      ok := *;
      if id in rows {
        ok := false;
      }
      if ok {
        rows := rows[id := deployment];
      }
      heard := heard + [ok];
    }

    // Saves the whole row as it was read, with the caller's changes.
    method UpdateWorkerDeployment(id: Id, deployment: Row) returns (ok: bool)
      modifies this`rows, this`heard
      ensures rows == if ok then old(rows)[id := deployment] else old(rows)
      ensures heard == old(heard) + [ok]
    {
      ok := *;
      if ok {
        rows := rows[id := deployment];
      }
      heard := heard + [ok];
    }

    // Updates one column of whatever row is there.
    method MarkWorkerDeploymentStatus(id: Id, status: Status) returns (ok: bool)
      modifies this`rows, this`heard
      ensures rows.Keys == old(rows).Keys
      ensures forall d :: d in rows ==>
        rows[d] == if ok && d == id then old(rows)[d].(status := status) else old(rows)[d]
      ensures heard == old(heard) + [ok]
    {
      ok := *;
      if ok && id in rows {
        rows := rows[id := rows[id].(status := status)];
      }
      heard := heard + [ok];
    }

    method MarkWorkerDeploymentStarted(id: Id) returns (ok: bool)
      modifies this`rows, this`heard
      ensures rows.Keys == old(rows).Keys
      ensures forall d :: d in rows ==>
        rows[d] == if ok && d == id then Row(Provisioning, Some(now)) else old(rows)[d]
      ensures heard == old(heard) + [ok]
    {
      ok := *;
      if ok && id in rows {
        rows := rows[id := rows[id].(status := Provisioning, lastStartedAt := Some(now))];
      }
      heard := heard + [ok];
    }

    method Start(id: Id) returns (ok: bool)
      modifies this`running, this`heard
      ensures running == if ok then old(running) + {id} else old(running)
      ensures heard == old(heard) + [ok]
    {
      ok := *;
      if ok {
        running := running + {id};
      }
      heard := heard + [ok];
    }

    method Stop(id: Id) returns (ok: bool)
      modifies this`running, this`heard
      ensures running == if ok then old(running) - {id} else old(running)
      ensures heard == old(heard) + [ok]
    {
      ok := *;
      if ok {
        running := running - {id};
      }
      heard := heard + [ok];
    }

    method Health(id: Id) returns (ok: bool)
      modifies this`heard
      ensures heard == old(heard) + [ok]
    {
      ok := *;
      heard := heard + [ok];
    }

    // What an access has to prepare; a failure is the failure of that access.
    method Prepare() returns (ok: bool)
      modifies this`heard
      ensures heard == if ok then old(heard) else old(heard) + [false]
    {
      ok := *;
      if !ok {
        heard := heard + [false];
      }
    }

    // --------------------------------------------------------- the reconciler

    // The reconciler's write of a status, which ends its visit.
    method MarkStatus(ghost from: State, id: Id, status: Status)
      requires Reaches(TheReconciler, from, View(), heard) && reconciler.At? && reconciler.id == id
      requires match reconciler.stage
               case Write(next, _) => status == next
               case WriteStopped => status == Stopped
               case _ => false
      modifies this
      ensures Reaches(TheReconciler, from, View(), heard) && reconciler == Pass(old(reconciler).rest)
    {
      ghost var before := ReconcilerWaits(from);
      ghost var was := heard;
      var ok := MarkWorkerDeploymentStatus(id, status);
      reconciler := Pass(reconciler.rest);
      assert rows == if ok then SetStatus(before.rows, id, status) else before.rows;
      assert View() == Apply(before, Reconcile(ok));
      OneStep(TheReconciler, from, before, Reconcile(ok), was, ok);
    }

    /** One deployment of a pass: every outcome is a run of the step system, on
        the answers that the calls gave, that ends with the reconciler back in
        its loop. */
    method ReconcileWorkerDeployment(id: Id, deployment: Row)
      requires reconciler.Pass? && reconciler.rest != [] && reconciler.rest[0] == (id, deployment)
      modifies this
      ensures Reaches(TheReconciler, old(View()), View(), heard)
      ensures reconciler == Pass(old(reconciler).rest[1..])
    {
      heard := [];
      ghost var from := View();
      Stays(TheReconciler, from);
      ghost var rest := reconciler.rest[1..];
      ghost var before := ReconcilerWaits(from);
      ghost var was := heard;
      var ok, assistant := GetDigitalAssistantByID(id);
      if !ok {
        reconciler := Pass(rest);
        OneStep(TheReconciler, from, before, Reconcile(false), was, false);
        return;
      }
      if assistant == None || assistant.value != Active {
        reconciler := At(StopInactive, id, deployment, rest);
        OneStep(TheReconciler, from, before, Reconcile(true), was, true);
        StopInactiveWorker(from, id);
        return;
      }
      if deployment.status == Ready {
        reconciler := At(ProbeReady, id, deployment, rest);
        OneStep(TheReconciler, from, before, Reconcile(true), was, true);
        ReconcileReadyWorker(from, id);
        return;
      }
      if deployment.status == Provisioning {
        reconciler := At(ProbeProvisioning, id, deployment, rest);
        OneStep(TheReconciler, from, before, Reconcile(true), was, true);
        ReconcileProvisioningWorker(from, id, deployment);
        return;
      }
      reconciler := At(WriteStarted, id, deployment, rest);
      OneStep(TheReconciler, from, before, Reconcile(true), was, true);
      StartWorkerDeployment(from, id);
    }

    method StopInactiveWorker(ghost from: State, id: Id)
      requires Reaches(TheReconciler, from, View(), heard) && reconciler.At? && reconciler.id ==
        id && reconciler.stage == StopInactive
      modifies this
      ensures Reaches(TheReconciler, from, View(), heard) && reconciler == Pass(old(reconciler).rest)
    {
      ghost var before := ReconcilerWaits(from);
      ghost var was := heard;
      var ok := Stop(id);
      if !ok {
        reconciler := Pass(reconciler.rest);
        OneStep(TheReconciler, from, before, Reconcile(false), was, false);
        return;
      }
      reconciler := reconciler.(stage := WriteStopped);
      OneStep(TheReconciler, from, before, Reconcile(true), was, true);
      MarkStatus(from, id, Stopped);
    }

    method ReconcileReadyWorker(ghost from: State, id: Id)
      requires Reaches(TheReconciler, from, View(), heard) && reconciler.At? && reconciler.id ==
        id && reconciler.stage == ProbeReady
      modifies this
      ensures Reaches(TheReconciler, from, View(), heard) && reconciler == Pass(old(reconciler).rest)
    {
      ghost var before := ReconcilerWaits(from);
      ghost var was := heard;
      var ok := Health(id);
      var next := if ok then Ready else Failed;
      reconciler := reconciler.(stage := Write(next, false));
      OneStep(TheReconciler, from, before, Reconcile(ok), was, ok);
      MarkStatus(from, id, next);
    }

    method ReconcileProvisioningWorker(ghost from: State, id: Id, deployment: Row)
      requires Reaches(TheReconciler, from, View(), heard) && reconciler.At? && reconciler.id == id
      requires reconciler.seen == deployment && reconciler.stage == ProbeProvisioning
      modifies this
      ensures Reaches(TheReconciler, from, View(), heard) && reconciler == Pass(old(reconciler).rest)
    {
      ghost var before := ReconcilerWaits(from);
      ghost var was := heard;
      var ok := Health(id);
      var next;
      if ok {
        next := Ready;
      } else if deployment.lastStartedAt == None {
        next := Failed;
      } else if now - deployment.lastStartedAt.value > PROVISION_TIMEOUT {
        next := Failed;
      } else {
        next := Provisioning;
      }
      reconciler := reconciler.(stage := Write(next, false));
      OneStep(TheReconciler, from, before, Reconcile(ok), was, ok);
      MarkStatus(from, id, next);
    }

    method StartWorkerDeployment(ghost from: State, id: Id)
      requires Reaches(TheReconciler, from, View(), heard) && reconciler.At? && reconciler.id ==
        id && reconciler.stage == WriteStarted
      modifies this
      ensures Reaches(TheReconciler, from, View(), heard) && reconciler == Pass(old(reconciler).rest)
    {
      ghost var before := ReconcilerWaits(from);
      ghost var was := heard;
      var token := Prepare();
      if !token {
        reconciler := Pass(reconciler.rest);
        OneStep(TheReconciler, from, before, Reconcile(false), was, false);
        return;
      }
      var ok := MarkWorkerDeploymentStarted(id);
      if !ok {
        reconciler := Pass(reconciler.rest);
        assert rows == before.rows;
        OneStep(TheReconciler, from, before, Reconcile(false), was, false);
        return;
      }
      reconciler := reconciler.(stage := StartWorker);
      assert rows == if id in before.rows then before.rows[id := Row(Provisioning, Some(now))] else before.rows;
      OneStep(TheReconciler, from, before, Reconcile(true), was, true);
      StartAndProbe(from, id);
    }

    method StartAndProbe(ghost from: State, id: Id)
      requires Reaches(TheReconciler, from, View(), heard) && reconciler.At? && reconciler.id ==
        id && reconciler.stage == StartWorker
      modifies this
      ensures Reaches(TheReconciler, from, View(), heard) && reconciler == Pass(old(reconciler).rest)
    {
      ghost var before := ReconcilerWaits(from);
      ghost var was := heard;
      var ok := Start(id);
      if !ok {
        reconciler := reconciler.(stage := Write(Failed, false));
        OneStep(TheReconciler, from, before, Reconcile(false), was, false);
        MarkStatus(from, id, Failed);
        return;
      }
      reconciler := reconciler.(stage := ProbeStarted);
      OneStep(TheReconciler, from, before, Reconcile(true), was, true);
      ProbeStartedWorker(from, id);
    }

    method ProbeStartedWorker(ghost from: State, id: Id)
      requires Reaches(TheReconciler, from, View(), heard) && reconciler.At? && reconciler.id == id
      requires reconciler.stage == ProbeStarted
      modifies this
      ensures Reaches(TheReconciler, from, View(), heard) && reconciler == Pass(old(reconciler).rest)
    {
      ghost var before := ReconcilerWaits(from);
      ghost var was := heard;
      var ok := Health(id);
      var next := if ok then Ready else Provisioning;
      reconciler := reconciler.(stage := Write(next, true));
      OneStep(TheReconciler, from, before, Reconcile(ok), was, ok);
      MarkStatus(from, id, next);
    }

    /** A whole pass: list, then visit the listing in order, once each. `answers`
        are those of all its calls after the listing; the last step leaves it. */
    method ReconcileWorkerDeployments() returns (ghost answers: seq<bool>)
      requires reconciler == Idle
      modifies this
      ensures reconciler == Idle
      ensures Reaches(TheReconciler, old(View()), View(), answers)
    {
      answers, heard := [], [];
      ghost var from := View();
      Stays(TheReconciler, from);
      ghost var before := ReconcilerWaits(from);
      var ok, deployments := ListWorkerDeployments();
      if !ok { return; }
      reconciler := Pass(deployments);
      OneStart(TheReconciler, from, before, BeginPass(deployments), []);
      var i := 0;
      while i < |deployments|
        invariant 0 <= i <= |deployments|
        invariant Reaches(TheReconciler, from, View(), answers) && reconciler == Pass(deployments[i..])
      {
        ghost var here := View();
        ReconcileWorkerDeployment(deployments[i].0, deployments[i].1);
        ReachesOn(TheReconciler, from, here, View(), answers, heard);
        answers := answers + heard;
        i := i + 1;
      }
      before := View();
      reconciler := Idle;
      OneStep(TheReconciler, from, before, Reconcile(true), answers, true);
      answers := answers + [true];
    }

    // ------------------------------------------------------- a user's request

    // The row of an assistant, created if there is none; None is an error.
    method EnsureForAssistant(ghost from: State, ghost u: nat, id: Id) returns (deployment: Option<Row>)
      requires Reaches(TheUser(u), from, View(), heard) && u in users && users[u] == FindToActivate(id)
      modifies this
      ensures Reaches(TheUser(u), from, View(), heard)
      ensures match deployment
              case Some(row) => u in users && users[u] == SaveActive(id, row)
              case None => u !in users
    {
      ghost var before := UserWaits(from, u);
      ghost var was := heard;
      var ok, existing := GetWorkerDeploymentByAssistantID(id);
      if !ok {
        users := users - {u};
        OneStep(TheUser(u), from, before, Request(u, false), was, false);
        return None;
      }
      if existing.Some? {
        users := users[u := SaveActive(id, existing.value)];
        OneStep(TheUser(u), from, before, Request(u, true), was, true);
        return existing;
      }
      users := users[u := CreateRow(id)];
      OneStep(TheUser(u), from, before, Request(u, true), was, true);
      deployment := CreateForAssistant(from, u, id);
    }

    method CreateForAssistant(ghost from: State, ghost u: nat, id: Id) returns (deployment: Option<Row>)
      requires Reaches(TheUser(u), from, View(), heard) && u in users && users[u] == CreateRow(id)
      modifies this
      ensures Reaches(TheUser(u), from, View(), heard)
      ensures match deployment
              case Some(row) => u in users && users[u] == SaveActive(id, row)
              case None => u !in users
    {
      ghost var before := UserWaits(from, u);
      ghost var was := heard;
      var created := Row(Pending, None);
      var ok := Prepare();
      if ok {
        ok := CreateWorkerDeployment(id, created);
      }
      if !ok {
        users := users - {u};
        OneStep(TheUser(u), from, before, Request(u, false), was, false);
        return None;
      }
      users := users[u := SaveActive(id, created)];
      OneStep(TheUser(u), from, before, Request(u, true), was, true);
      return Some(created);
    }

    method MarkAssistantActive(ghost from: State, ghost u: nat, id: Id) returns (ok: bool)
      requires Reaches(TheUser(u), from, View(), heard) && u in users && users[u] == FindToActivate(id)
      modifies this
      ensures Reaches(TheUser(u), from, View(), heard) && u !in users
    {
      var deployment := EnsureForAssistant(from, u, id);
      if deployment == None { return false; }
      ghost var before := UserWaits(from, u);
      ghost var was := heard;
      ok := UpdateWorkerDeployment(id, deployment.value.(status := Pending));
      users := users - {u};
      OneStep(TheUser(u), from, before, Request(u, ok), was, ok);
    }

    method MarkAssistantStopped(ghost from: State, ghost u: nat, id: Id) returns (ok: bool)
      requires Reaches(TheUser(u), from, View(), heard) && u in users && users[u] == FindToStop(id)
      modifies this
      ensures Reaches(TheUser(u), from, View(), heard)
      ensures if ok then u in users && users[u] == FindToHalt(id) else u !in users
    {
      ghost var before := UserWaits(from, u);
      ghost var was := heard;
      var deployment;
      ok, deployment := GetWorkerDeploymentByAssistantID(id);
      if !ok {
        users := users - {u};
        OneStep(TheUser(u), from, before, Request(u, false), was, false);
        return;
      }
      if deployment == None {
        users := users[u := FindToHalt(id)];
        OneStep(TheUser(u), from, before, Request(u, true), was, true);
        return;
      }
      users := users[u := SaveStopped(id, deployment.value)];
      OneStep(TheUser(u), from, before, Request(u, true), was, true);
      ok := StopRow(from, u, id, deployment.value);
    }

    method StopRow(ghost from: State, ghost u: nat, id: Id, deployment: Row) returns (ok: bool)
      requires Reaches(TheUser(u), from, View(), heard) && u in users && users[u] == SaveStopped(id, deployment)
      modifies this
      ensures Reaches(TheUser(u), from, View(), heard)
      ensures if ok then u in users && users[u] == FindToHalt(id) else u !in users
    {
      ghost var before := UserWaits(from, u);
      ghost var was := heard;
      ok := UpdateWorkerDeployment(id, deployment.(status := Stopped));
      users := if ok then users[u := FindToHalt(id)] else users - {u};
      OneStep(TheUser(u), from, before, Request(u, ok), was, ok);
    }

    method HaltDeployment(ghost from: State, ghost u: nat, id: Id) returns (ok: bool)
      requires Reaches(TheUser(u), from, View(), heard) && u in users && users[u] == FindToHalt(id)
      modifies this
      ensures Reaches(TheUser(u), from, View(), heard) && u !in users
    {
      ghost var before := UserWaits(from, u);
      ghost var was := heard;
      var deployment;
      ok, deployment := GetWorkerDeploymentByAssistantID(id);
      if !ok || deployment == None {
        users := users - {u};
        OneStep(TheUser(u), from, before, Request(u, ok), was, ok);
        return;
      }
      users := users[u := HaltWorker(id)];
      OneStep(TheUser(u), from, before, Request(u, true), was, true);
      ok := StopDeployment(from, u, id);
    }

    method StopDeployment(ghost from: State, ghost u: nat, id: Id) returns (ok: bool)
      requires Reaches(TheUser(u), from, View(), heard) && u in users && users[u] == HaltWorker(id)
      modifies this
      ensures Reaches(TheUser(u), from, View(), heard) && u !in users
    {
      ghost var before := UserWaits(from, u);
      ghost var was := heard;
      ok := Stop(id);
      users := users - {u};
      OneStep(TheUser(u), from, before, Request(u, ok), was, ok);
    }

    /** A user's status change: whatever fails, a run of the step system, on the
        answers that the calls gave, that leaves with its request finished. */
    method UpdateDigitalAssistantStatus(ghost u: nat, id: Id, status: AssistantStatus) returns (ok: bool)
      requires u !in users
      modifies this
      ensures Reaches(TheUser(u), old(View()), View(), heard) && u !in users
    {
      ghost var from := View();
      Stays(TheUser(u), from);
      var assistant;
      ok, assistant := GetDigitalAssistantByID(id);
      heard := [];
      if !ok || assistant == None { return false; }
      users := users[u := SaveAssistant(id, status)];
      OneStart(TheUser(u), from, from, BeginRequest(u, id, status), []);
      ok := SaveAndProvision(from, u, id, status);
    }

    // The assistant's row, and then the deployment's.
    method SaveAndProvision(ghost from: State, ghost u: nat, id: Id, status: AssistantStatus) returns (ok: bool)
      requires Reaches(TheUser(u), from, View(), heard) && u in users && users[u] == SaveAssistant(id, status)
      modifies this
      ensures Reaches(TheUser(u), from, View(), heard) && u !in users
    {
      ghost var before := UserWaits(from, u);
      ghost var was := heard;
      ok := UpdateDigitalAssistant(id, status);
      ghost var next :=
        if !ok || status == Unlisted then None
        else if status == Active then Some(FindToActivate(id)) else Some(FindToStop(id));
      users := Goto(before, u, next);
      OneStep(TheUser(u), from, before, Request(u, ok), was, ok);
      if !ok { return; }
      match status {
        case Active => ok := MarkAssistantActive(from, u, id);
        case Unlisted =>
        case _ =>
          ok := MarkAssistantStopped(from, u, id);
          if ok {
            ok := HaltDeployment(from, u, id);
          }
      }
    }
  }
}
