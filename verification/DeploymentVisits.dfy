/**
 What one visit of the reconciler, and one request of a user, does to a deployment
 when nobody else moves: the row, the worker and the assistant afterwards, from
 what they were and what the calls answered.
 */
module DeploymentVisits {
  import opened Common
  import opened WorkerDeployments
  import opened DeploymentController

  function Access(me: Party, ok: bool): Step
    requires me != Environment
  {
    match me
    case TheReconciler => Reconcile(ok)
    case TheUser(u) => Request(u, ok)
  }

  // A run of one party's accesses alone, which got these answers.
  ghost predicate Alone(me: Party, s: State, answers: seq<bool>, t: State)
    requires me != Environment
  {
    exists steps :: Leads(s, steps, t) && AllMine(me, steps) && Answers(me, steps) == answers
  }

  predicate AllMine(me: Party, steps: seq<Step>) {
    forall k :: 0 <= k < |steps| ==> Mover(steps[k]) == me && (steps[k].Reconcile? || steps[k].Request?)
  }

  lemma {:induction false} OneAnswerEach(me: Party, steps: seq<Step>)
    requires AllMine(me, steps)
    ensures |Answers(me, steps)| == |steps|
    decreases |steps|
  {
    if steps != [] {
      OneAnswerEach(me, steps[..|steps| - 1]);
    }
  }

  lemma {:induction false} AloneEnds(me: Party, s: State, t: State)
    requires me != Environment && Alone(me, s, [], t)
    ensures t == s
  {
    var steps :| Leads(s, steps, t) && AllMine(me, steps) && Answers(me, steps) == [];
    OneAnswerEach(me, steps);
  }

  lemma {:induction false} AloneStep(me: Party, s: State, ok: bool, more: seq<bool>, t: State)
    requires me != Environment && Alone(me, s, [ok] + more, t)
    ensures Enabled(s, Access(me, ok)) && Alone(me, Apply(s, Access(me, ok)), more, t)
  {
    var steps :| Leads(s, steps, t) && AllMine(me, steps) && Answers(me, steps) == [ok] + more;
    OneAnswerEach(me, steps);
    var first, rest := steps[0], steps[1..];
    assert steps == [first] + rest;
    AnswersAppend(me, [first], rest);
    assert Answers(me, [first]) == [first.ok] by {
      assert [first][..0] == [];
    }
    assert ([ok] + more)[0] == first.ok && ([ok] + more)[1..] == more;
    assert Answers(me, rest) == (Answers(me, [first]) + Answers(me, rest))[1..];
    assert first == Access(me, ok);
    assert Leads(Apply(s, first), rest, t);
  }

  // One more access in front.
  lemma {:induction false} AloneFrom(me: Party, s: State, ok: bool, more: seq<bool>, t: State)
    requires me != Environment && Enabled(s, Access(me, ok)) && Alone(me, Apply(s, Access(me, ok)), more, t)
    ensures Alone(me, s, [ok] + more, t)
  {
    var first := Access(me, ok);
    var rest :| Leads(Apply(s, first), rest, t) && AllMine(me, rest) && Answers(me, rest) == more;
    Prepend(s, first, rest, t);
    AnswersAppend(me, [first], rest);
    assert Answers(me, [first]) == [ok] by {
      assert [first][..0] == [];
    }
  }

  lemma {:induction false} AloneStays(me: Party, s: State)
    requires me != Environment
    ensures Alone(me, s, [], s)
  {
    assert Leads(s, [], s) && Answers(me, []) == [];
  }

  // The answers decide where the party gets.
  lemma {:induction false} AloneOnce(me: Party, s: State, answers: seq<bool>, t: State, u: State)
    requires me != Environment && Alone(me, s, answers, t) && Alone(me, s, answers, u)
    ensures t == u
    decreases |answers|
  {
    if answers == [] {
      AloneEnds(me, s, t);
      AloneEnds(me, s, u);
    } else {
      var ok, more := answers[0], answers[1..];
      assert answers == [ok] + more;
      AloneStep(me, s, ok, more, t);
      AloneStep(me, s, ok, more, u);
      AloneOnce(me, Apply(s, Access(me, ok)), more, t, u);
    }
  }

  // The one state that these answers lead to.
  ghost predicate Ends(me: Party, s: State, answers: seq<bool>, t: State)
    requires me != Environment
  {
    Alone(me, s, answers, t) && forall u :: Alone(me, s, answers, u) ==> u == t
  }

  lemma {:induction false} EndsHere(me: Party, s: State)
    requires me != Environment
    ensures Ends(me, s, [], s)
  {
    AloneStays(me, s);
    forall u | Alone(me, s, [], u) ensures u == s {
      AloneOnce(me, s, [], u, s);
    }
  }

  lemma {:induction false} EndsFrom(me: Party, s: State, ok: bool, more: seq<bool>, t: State)
    requires me != Environment && Enabled(s, Access(me, ok)) && Ends(me, Apply(s, Access(me, ok)), more, t)
    ensures Ends(me, s, [ok] + more, t)
  {
    AloneFrom(me, s, ok, more, t);
    forall u | Alone(me, s, [ok] + more, u) ensures u == t {
      AloneOnce(me, s, [ok] + more, u, t);
    }
  }

  // Two accesses in front.
  lemma {:induction false} EndsFromTwo(me: Party, s: State, a: bool, b: bool, more: seq<bool>, t: State)
    requires me != Environment && Enabled(s, Access(me, a)) && Enabled(Apply(s, Access(me, a)), Access(me, b))
    requires Ends(me, Apply(Apply(s, Access(me, a)), Access(me, b)), more, t)
    ensures Ends(me, s, [a, b] + more, t)
  {
    EndsFrom(me, Apply(s, Access(me, a)), b, more, t);
    EndsFrom(me, s, a, [b] + more, t);
    assert [a] + ([b] + more) == [a, b] + more;
  }

  lemma {:induction false} EndsFromOne(me: Party, s: State, a: bool)
    requires me != Environment && Enabled(s, Access(me, a))
    ensures Ends(me, s, [a], Apply(s, Access(me, a)))
  {
    EndsHere(me, Apply(s, Access(me, a)));
    EndsFrom(me, s, a, [], Apply(s, Access(me, a)));
    assert [a] + [] == [a];
  }

  // --------------------------------------------------------- the reconciler

  // The next deployment of the pass, listed as it still is.
  predicate Visits(s: State, d: Id, row: Row, rest: seq<(Id, Row)>) {
    s.reconciler == Pass([(d, row)] + rest) && d in s.rows && s.rows[d] == row
  }

  predicate IsActive(s: State, d: Id) {
    d in s.assistants && s.assistants[d] == Active
  }

  function WithStatus(s: State, d: Id, status: Status, written: bool): map<Id, Row>
    requires d in s.rows
  {
    if written then s.rows[d := Row(status, s.rows[d].lastStartedAt)] else s.rows
  }

  lemma {:induction false} FirstOf(d: Id, row: Row, rest: seq<(Id, Row)>)
    ensures ([(d, row)] + rest)[0] == (d, row) && ([(d, row)] + rest)[1..] == rest
  {
  }

  // The reconciler at a stage of this visit.
  function AtStage(s: State, stage: Stage, d: Id, row: Row, rest: seq<(Id, Row)>): State {
    s.(reconciler := At(stage, d, row, rest))
  }

  // The write that ends a visit.
  lemma {:induction false} LastWrite(
    s: State, status: Status, started: bool, d: Id, row: Row, rest: seq<(Id, Row)>, written: bool)
    requires d in s.rows
    ensures
      Ends(TheReconciler, AtStage(s, Write(status, started), d, row, rest), [written],
           s.(reconciler := Pass(rest), rows := WithStatus(s, d, status, written)))
  {
    var me := AtStage(s, Write(status, started), d, row, rest);
    EndsFromOne(TheReconciler, me, written);
    assert Apply(me, Reconcile(written)) ==
      s.(reconciler := Pass(rest), rows := WithStatus(s, d, status, written));
  }

  /** A ready deployment is probed: healthy it stays ready, unhealthy it is failed. */
  lemma {:induction false} ReadyVisit(s: State, d: Id, row: Row, rest: seq<(Id, Row)>, healthy: bool, written: bool)
    requires Visits(s, d, row, rest) && IsActive(s, d) && row.status == Ready
    ensures
      Ends(TheReconciler, s, [true, healthy, written],
           s.(reconciler := Pass(rest), rows := WithStatus(s, d, if healthy then Ready else Failed, written)))
  {
    FirstOf(d, row, rest);
    var next := if healthy then Ready else Failed;
    LastWrite(s, next, false, d, row, rest, written);
    assert Apply(s, Reconcile(true)) == AtStage(s, ProbeReady, d, row, rest);
    EndsFromTwo(TheReconciler, s, true, healthy, [written],
                s.(reconciler := Pass(rest), rows := WithStatus(s, d, next, written)));
    assert [true, healthy] + [written] == [true, healthy, written];
  }

  /** A provisioning deployment is probed: healthy it is ready; unhealthy it is failed
      if it never started or did so more than five minutes ago, and else goes on. */
  lemma {:induction false} ProvisioningVisit(
    s: State, d: Id, row: Row, rest: seq<(Id, Row)>, healthy: bool, written: bool)
    requires Visits(s, d, row, rest) && IsActive(s, d) && row.status == Provisioning
    ensures
      var late := row.lastStartedAt == None || s.now - row.lastStartedAt.value > 5 * 60 * 1000;
      var next := if healthy then Ready else if late then Failed else Provisioning;
      Ends(TheReconciler, s, [true, healthy, written],
           s.(reconciler := Pass(rest), rows := WithStatus(s, d, next, written)))
  {
    FirstOf(d, row, rest);
    var late := row.lastStartedAt == None || s.now - row.lastStartedAt.value > 5 * 60 * 1000;
    var next := if healthy then Ready else if late then Failed else Provisioning;
    LastWrite(s, next, false, d, row, rest, written);
    assert Apply(s, Reconcile(true)) == AtStage(s, ProbeProvisioning, d, row, rest);
    EndsFromTwo(TheReconciler, s, true, healthy, [written],
                s.(reconciler := Pass(rest), rows := WithStatus(s, d, next, written)));
    assert [true, healthy] + [written] == [true, healthy, written];
  }

  /** The deployment of an assistant that is not active is stopped, and its row then
      says so. */
  lemma {:induction false} InactiveVisit(s: State, d: Id, row: Row, rest: seq<(Id, Row)>, written: bool)
    requires Visits(s, d, row, rest) && !IsActive(s, d)
    ensures
      Ends(TheReconciler, s, [true, true, written],
           s.(reconciler := Pass(rest), running := s.running - {d}, rows := WithStatus(s, d, Stopped, written)))
  {
    FirstOf(d, row, rest);
    var t := s.(reconciler := Pass(rest), running := s.running - {d}, rows := WithStatus(s, d, Stopped, written));
    var s1 := AtStage(s, StopInactive, d, row, rest);
    var s2 := AtStage(s.(running := s.running - {d}), WriteStopped, d, row, rest);
    assert Apply(s, Reconcile(true)) == s1 && Apply(s1, Reconcile(true)) == s2;
    EndsFromOne(TheReconciler, s2, written);
    assert Apply(s2, Reconcile(written)) == t;
    EndsFromTwo(TheReconciler, s, true, true, [written], t);
    assert [true, true] + [written] == [true, true, written];
  }

  // A visit that its second access ends.
  lemma {:induction false} SecondFails(s: State, d: Id, row: Row, rest: seq<(Id, Row)>, stage: Stage)
    requires Visits(s, d, row, rest) && Branch(s, row, d) == stage && (stage == StopInactive || stage == WriteStarted)
    ensures Ends(TheReconciler, s, [true, false], s.(reconciler := Pass(rest)))
  {
    FirstOf(d, row, rest);
    var s1 := AtStage(s, stage, d, row, rest);
    assert Apply(s, Reconcile(true)) == s1;
    EndsHere(TheReconciler, s.(reconciler := Pass(rest)));
    assert Apply(s1, Reconcile(false)) == s.(reconciler := Pass(rest));
    EndsFromTwo(TheReconciler, s, true, false, [], s.(reconciler := Pass(rest)));
    assert [true, false] + [] == [true, false];
  }

  /** If the Stop fails nothing is written, and a start that cannot be recorded is not
      made. */
  lemma {:induction false} FailedVisit(s: State, d: Id, row: Row, rest: seq<(Id, Row)>)
    requires Visits(s, d, row, rest) && (IsActive(s, d) ==> row.status == Pending || row.status == Failed)
    ensures Ends(TheReconciler, s, [true, false], s.(reconciler := Pass(rest)))
  {
    SecondFails(s, d, row, rest, if IsActive(s, d) then WriteStarted else StopInactive);
  }

  // The start is recorded, and then asked for.
  lemma {:induction false} Recorded(
    s: State, d: Id, row: Row, rest: seq<(Id, Row)>, started: bool, more: seq<bool>, t: State)
    requires Visits(s, d, row, rest) && IsActive(s, d) && (row.status == Pending || row.status == Failed)
    requires
      var u := s.(rows := s.rows[d := Row(Provisioning, Some(s.now))]);
      Ends(TheReconciler,
           if started then AtStage(u.(running := s.running + {d}), ProbeStarted, d, row, rest)
           else AtStage(u, Write(Failed, false), d, row, rest), more, t)
    ensures Ends(TheReconciler, s, [true, true, started] + more, t)
  {
    FirstOf(d, row, rest);
    var u := s.(rows := s.rows[d := Row(Provisioning, Some(s.now))]);
    assert Apply(s, Reconcile(true)) == AtStage(s, WriteStarted, d, row, rest);
    assert Apply(AtStage(s, WriteStarted, d, row, rest), Reconcile(true)) == AtStage(u, StartWorker, d, row, rest);
    EndsFrom(TheReconciler, AtStage(u, StartWorker, d, row, rest), started, more, t);
    EndsFromTwo(TheReconciler, s, true, true, [started] + more, t);
    assert [true, true] + ([started] + more) == [true, true, started] + more;
  }

  /** A pending or failed deployment has its start recorded, and then its worker is
      started and probed: healthy it is ready, unhealthy it is provisioning. */
  lemma {:induction false} StartingVisit(
    s: State, d: Id, row: Row, rest: seq<(Id, Row)>, healthy: bool, written: bool)
    requires Visits(s, d, row, rest) && IsActive(s, d) && (row.status == Pending || row.status == Failed)
    ensures
      var next := if written && healthy then Ready else Provisioning;
      Ends(TheReconciler, s, [true, true, true, healthy, written],
           s.(reconciler := Pass(rest), running := s.running + {d}, rows := s.rows[d := Row(next, Some(s.now))]))
  {
    var next := if written && healthy then Ready else Provisioning;
    var u := s.(rows := s.rows[d := Row(Provisioning, Some(s.now))], running := s.running + {d});
    var t := s.(reconciler := Pass(rest), running := s.running + {d}, rows := s.rows[d := Row(next, Some(s.now))]);
    LastWrite(u, if healthy then Ready else Provisioning, true, d, row, rest, written);
    assert u.(reconciler := Pass(rest),
              rows := WithStatus(u, d, if healthy then Ready else Provisioning, written)) == t;
    EndsFrom(TheReconciler, AtStage(u, ProbeStarted, d, row, rest), healthy, [written], t);
    Recorded(s, d, row, rest, true, [healthy] + [written], t);
    assert [true, true, true] + ([healthy] + [written]) == [true, true, true, healthy, written];
  }

  /** A start that the scheduler refuses leaves the deployment failed, with its start
      recorded. */
  lemma {:induction false} RefusedVisit(s: State, d: Id, row: Row, rest: seq<(Id, Row)>, written: bool)
    requires Visits(s, d, row, rest) && IsActive(s, d) && (row.status == Pending || row.status == Failed)
    ensures
      var next := if written then Failed else Provisioning;
      Ends(TheReconciler, s, [true, true, false, written],
           s.(reconciler := Pass(rest), rows := s.rows[d := Row(next, Some(s.now))]))
  {
    var next := if written then Failed else Provisioning;
    var u := s.(rows := s.rows[d := Row(Provisioning, Some(s.now))]);
    var t := s.(reconciler := Pass(rest), rows := s.rows[d := Row(next, Some(s.now))]);
    LastWrite(u, Failed, false, d, row, rest, written);
    assert u.(reconciler := Pass(rest), rows := WithStatus(u, d, Failed, written)) == t;
    Recorded(s, d, row, rest, false, [written], t);
    assert [true, true, false] + [written] == [true, true, false, written];
  }

  // ------------------------------------------------------------ the requests

  // A request that is about to save the assistant's new status.
  predicate Asks(s: State, u: nat, d: Id, status: AssistantStatus) {
    u in s.users && s.users[u] == SaveAssistant(d, status)
  }

  // The request at a point of its way.
  function AtPoint(s: State, u: nat, pc: User): State {
    s.(users := s.users[u := pc])
  }

  // The last access of a request.
  lemma {:induction false} LastAccess(s: State, u: nat, pc: User, t: State)
    requires Apply(AtPoint(s, u, pc), Request(u, true)) == t.(users := s.users[u := pc] - {u})
    requires t.users == s.users - {u}
    ensures Ends(TheUser(u), AtPoint(s, u, pc), [true], t)
  {
    assert s.users[u := pc] - {u} == s.users - {u};
    EndsFromOne(TheUser(u), AtPoint(s, u, pc), true);
  }

  /** Activating makes the deployment's row pending. */
  lemma {:induction false} Activating(s: State, u: nat, d: Id)
    requires Asks(s, u, d, Active) && d in s.rows
    ensures
      Ends(TheUser(u), s, [true, true, true],
           s.(assistants := s.assistants[d := Active], users := s.users - {u},
              rows := s.rows[d := Row(Pending, s.rows[d].lastStartedAt)]))
  {
    var me, s1 := TheUser(u), s.(assistants := s.assistants[d := Active]);
    var t := s1.(users := s.users - {u}, rows := s.rows[d := Row(Pending, s.rows[d].lastStartedAt)]);
    assert Apply(s, Request(u, true)) == AtPoint(s1, u, FindToActivate(d));
    LastAccess(s1, u, SaveActive(d, s.rows[d]), t);
    assert s1.users[u := FindToActivate(d)][u := SaveActive(d, s.rows[d])] ==
      s1.users[u := SaveActive(d, s.rows[d])];
    EndsFromTwo(me, s, true, true, [true], t);
    assert [true, true] + [true] == [true, true, true];
  }

  /** Without a row it is created. */
  lemma {:induction false} Creating(s: State, u: nat, d: Id)
    requires Asks(s, u, d, Active) && d !in s.rows
    ensures
      Ends(TheUser(u), s, [true, true, true, true],
           s.(assistants := s.assistants[d := Active], users := s.users - {u},
              rows := s.rows[d := Row(Pending, None)]))
  {
    var me, s1 := TheUser(u), s.(assistants := s.assistants[d := Active]);
    var row := Row(Pending, None);
    var s3 := s1.(rows := s.rows[d := row]);
    var t := s3.(users := s.users - {u});
    assert Apply(s, Request(u, true)) == AtPoint(s1, u, FindToActivate(d));
    assert s1.users[u := FindToActivate(d)][u := CreateRow(d)] == s1.users[u := CreateRow(d)];
    assert s1.users[u := CreateRow(d)][u := SaveActive(d, row)] == s1.users[u := SaveActive(d, row)];
    assert s3.rows[d := row] == s3.rows;
    LastAccess(s3, u, SaveActive(d, row), t);
    EndsFrom(me, AtPoint(s1, u, CreateRow(d)), true, [true], t);
    EndsFromTwo(me, s, true, true, [true] + [true], t);
    assert [true, true] + ([true] + [true]) == [true, true, true, true];
  }

  // A request on its way to stop the worker of a row that is there.
  lemma {:induction false} Halting(s: State, u: nat, d: Id)
    requires d in s.rows
    ensures
      Ends(TheUser(u), AtPoint(s, u, FindToHalt(d)), [true, true],
           s.(running := s.running - {d}, users := s.users - {u}))
  {
    var t := s.(running := s.running - {d}, users := s.users - {u});
    LastAccess(s, u, HaltWorker(d), t);
    assert s.users[u := FindToHalt(d)][u := HaltWorker(d)] == s.users[u := HaltWorker(d)];
    EndsFrom(TheUser(u), AtPoint(s, u, FindToHalt(d)), true, [true], t);
    assert [true] + [true] == [true, true];
  }

  /** Every other status that is known stops the deployment: its row says stopped, and
      its worker is stopped. */
  lemma {:induction false} Deactivating(s: State, u: nat, d: Id, status: AssistantStatus)
    requires Asks(s, u, d, status) && status in {Draft, Inactive, Archived} && d in s.rows
    ensures
      Ends(TheUser(u), s, [true, true, true, true, true],
           s.(assistants := s.assistants[d := status], users := s.users - {u}, running := s.running - {d},
              rows := s.rows[d := Row(Stopped, s.rows[d].lastStartedAt)]))
  {
    var me, s1 := TheUser(u), s.(assistants := s.assistants[d := status]);
    var row := s.rows[d];
    var s3 := s1.(rows := s.rows[d := Row(Stopped, row.lastStartedAt)]);
    assert Apply(s, Request(u, true)) == AtPoint(s1, u, FindToStop(d));
    assert s1.users[u := FindToStop(d)][u := SaveStopped(d, row)] == s1.users[u := SaveStopped(d, row)];
    assert s1.users[u := SaveStopped(d, row)][u := FindToHalt(d)] == s1.users[u := FindToHalt(d)];
    Halting(s3, u, d);
    var t := s3.(running := s.running - {d}, users := s.users - {u});
    EndsFrom(me, AtPoint(s1, u, SaveStopped(d, row)), true, [true, true], t);
    EndsFromTwo(me, s, true, true, [true] + [true, true], t);
    assert [true, true] + ([true] + [true, true]) == [true, true, true, true, true];
  }

  /** A status that is not known is only saved. */
  lemma {:induction false} OtherStatus(s: State, u: nat, d: Id)
    requires Asks(s, u, d, Unlisted)
    ensures
      Ends(TheUser(u), s, [true], s.(assistants := s.assistants[d := Unlisted], users := s.users - {u}))
  {
    EndsFromOne(TheUser(u), s, true);
  }
}
