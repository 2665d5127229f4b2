/**
 The login limiter: a failure counter per identifier in fixed five-minute windows,
 checked before the credentials and written after, at two readings of the clock.
 */
module LoginLimiter {
  import opened Common

  // Milliseconds.
  const WINDOW: int := 300_000
  const MAX_FAILURES: nat := 5

  datatype Attempt = Attempt(failures: nat, expiresAt: int)

  type Row = Option<Attempt>

  // ---------------------------------------------------------------- the rules

  predicate Live(row: Row, now: int) {
    row.Some? && row.value.expiresAt > now
  }

  function Cleaned(row: Row, now: int): Row {
    if Live(row, now) then row else None
  }

  function Swept(row: Row, now: int, ok: bool): Row {
    if ok then Cleaned(row, now) else row
  }

  predicate Admits(row: Row, now: int) {
    Live(row, now) ==> row.value.failures < MAX_FAILURES
  }

  function Failed(row: Row, now: int): Row {
    if Live(row, now) then Some(row.value.(failures := row.value.failures + 1))
    else Some(Attempt(1, now + WINDOW))
  }

  function RowOf(attempts: map<string, Attempt>, id: string): Row {
    if id in attempts then Some(attempts[id]) else None
  }

  /** The table of attempts. A flag says whether a database call got through. */
  class AuthService {
    var attempts: map<string, Attempt>

    constructor ()
      ensures attempts == map[]
    {
      attempts := map[];
    }

    method CleanupExpired(now: int, ok: bool)
      modifies this
      ensures forall id :: RowOf(attempts, id) == Swept(old(RowOf(attempts, id)), now, ok)
    {
      if ok {
        attempts := map id | id in attempts && attempts[id].expiresAt > now :: attempts[id];
      }
    }

    method EnsureLoginAllowed(id: string, now: int, cleans: bool, readable: bool) returns (allowed: bool)
      modifies this
      ensures forall x :: RowOf(attempts, x) == Swept(old(RowOf(attempts, x)), now, cleans)
      ensures allowed <==> readable && Admits(old(RowOf(attempts, id)), now)
    {
      CleanupExpired(now, cleans);
      if !readable { return false; }
      var attempt := RowOf(attempts, id);
      if attempt == None || attempt.value.expiresAt <= now { return true; }
      return attempt.value.failures < MAX_FAILURES;
    }

    method RecordLoginFailure(id: string, now: int, stores: bool)
      modifies this
      ensures RowOf(attempts, id) == if stores then Failed(old(RowOf(attempts, id)), now) else old(RowOf(attempts, id))
      ensures forall x :: x != id ==> RowOf(attempts, x) == old(RowOf(attempts, x))
    {
      var attempt := RowOf(attempts, id);
      if attempt == None || attempt.value.expiresAt <= now {
        attempt := Some(Attempt(1, now + WINDOW));
      } else {
        attempt := Some(attempt.value.(failures := attempt.value.failures + 1));
      }
      if stores {
        attempts := attempts[id := attempt.value];
      }
    }

    method ClearLoginFailures(id: string, deletes: bool)
      modifies this
      ensures RowOf(attempts, id) == if deletes then None else old(RowOf(attempts, id))
      ensures forall x :: x != id ==> RowOf(attempts, x) == old(RowOf(attempts, x))
    {
      if deletes {
        attempts := attempts - {id};
      }
    }

    /** One login: check, compare, then count the failure or clear the counter.
        By phone the table is swept once more in between. */
    method Login(id: string, try: Try)
      modifies this
      ensures RowOf(attempts, id) == AfterTry(old(RowOf(attempts, id)), try)
      // Other identifiers only lose counters that have expired.
      ensures forall x :: x != id ==>
        RowOf(attempts, x) ==
        if LetIn(old(RowOf(attempts, id)), try) then AtDecision(old(RowOf(attempts, x)), try)
        else Swept(old(RowOf(attempts, x)), try.admittedAt, try.cleans)
    {
      var allowed := EnsureLoginAllowed(id, try.admittedAt, try.cleans, try.readable);
      if !allowed { return; }
      if try.sweptAt.Some? {
        CleanupExpired(try.sweptAt.value, true);
      }
      match try.outcome {
        case Wrong => RecordLoginFailure(id, try.decidedAt, try.stores);
        case Right => ClearLoginFailures(id, try.stores);
        case Aborted =>
      }
    }
  }

  // ----------------------------------------------------- one identifier's life

  datatype Verdict = Wrong | Right | Aborted

  datatype Try = Try(
    admittedAt: int,
    sweptAt: Option<int>,
    decidedAt: int,
    outcome: Verdict,
    cleans: bool,     // the sweep at admission succeeded
    readable: bool,      // the counter could be read at admission
    stores: bool)     // the final write succeeded

  function AtDecision(row: Row, try: Try): Row {
    var admitted := Swept(row, try.admittedAt, try.cleans);
    if try.sweptAt.Some? then Cleaned(admitted, try.sweptAt.value) else admitted
  }

  predicate LetIn(row: Row, try: Try) {
    try.readable && Admits(row, try.admittedAt)
  }

  function AfterTry(row: Row, try: Try): Row {
    if !LetIn(row, try) then Swept(row, try.admittedAt, try.cleans)
    else match try.outcome
      case Wrong => if try.stores then Failed(AtDecision(row, try), try.decidedAt) else AtDecision(row, try)
      case Right => if try.stores then None else AtDecision(row, try)
      case Aborted => AtDecision(row, try)
  }

  /** What a login does to a counter that is live throughout: at five it is refused and
      nothing changes; below, a failure counts one more and a success clears it. */
  lemma {:induction false} LiveCounter(a: Attempt, try: Try)
    requires InOrder(try) && a.expiresAt > try.decidedAt && try.readable
    ensures LetIn(Some(a), try) <==> a.failures < 5
    ensures a.failures >= 5 ==> AfterTry(Some(a), try) == Some(a)
    ensures a.failures < 5 ==>
      AfterTry(Some(a), try) ==
      if !try.stores || try.outcome == Aborted then Some(a)
      else if try.outcome == Wrong then Some(Attempt(a.failures + 1, a.expiresAt))
      else None
  {
  }

  /** With no counter, or one that has expired, the login is let in, and a failure opens
      a window of five minutes. */
  lemma {:induction false} NoLiveCounter(row: Row, try: Try)
    requires InOrder(try) && (row.Some? ==> row.value.expiresAt <= try.admittedAt) && try.readable && try.stores
    ensures LetIn(row, try)
    ensures try.outcome == Wrong ==> AfterTry(row, try) == Some(Attempt(1, try.decidedAt + 5 * 60 * 1000))
    ensures try.outcome == Right ==> AfterTry(row, try) == None
  {
  }

  // ------------------------------------- many requests for one identifier

  // A recorded failure: when, in which window, as which of that window's failures.
  datatype Failure = Failure(at: int, windowStart: int, ordinal: nat)

  // An admitted request: not decided yet, or about to save what it has read.
  datatype Request = Undecided | Saving(attempt: Attempt, failure: Failure)

  // `since` lists the failures recorded since the last success.
  datatype State = State(now: int, row: Row, flying: map<nat, Request>, since: seq<Failure>)

  /** The steps of requests, interleaved at will. Decide reads and saves at once;
      Look and Save are the two accesses that recording a failure really makes.
      Sweeps happen on behalf of other identifiers too. */
  datatype Step =
    | Sweep(at: int)
    | Admit(request: nat, at: int, cleans: bool, readable: bool)
    | Decide(request: nat, at: int, outcome: Verdict, stores: bool)
    | Look(request: nat, at: int)
    | Save(request: nat, at: int, stores: bool)

  predicate Serial(step: Step) {
    !step.Look? && !step.Save?
  }

  function Record(row: Row, now: int): Failure {
    if Live(row, now) then Failure(now, row.value.expiresAt - WINDOW, row.value.failures)
    else Failure(now, now, 0)
  }

  // Time does not run back, and at most `c` requests are under way.
  predicate Enabled(c: nat, s: State, step: Step) {
    && s.now <= step.at
    && match step
       case Sweep(_) => true
       case Admit(q, _, _, _) => q !in s.flying && |s.flying| < c
       case Decide(q, _, _, _) => q in s.flying && s.flying[q].Undecided?
       case Look(q, _) => q in s.flying && s.flying[q].Undecided?
       case Save(q, _, _) => q in s.flying && s.flying[q].Saving?
  }

  // One more failure, read and saved at once.
  function Fail(s: State, at: int): State {
    State(at, Failed(s.row, at), s.flying, s.since + [Record(s.row, at)])
  }

  function Apply(c: nat, s: State, step: Step): State
    requires Enabled(c, s, step)
  {
    match step
    case Sweep(at) => s.(now := at, row := Cleaned(s.row, at))
    case Admit(q, at, cleans, readable) =>
      s.(now := at, row := Swept(s.row, at, cleans),
         flying := if readable && Admits(s.row, at) then s.flying[q := Undecided] else s.flying)
    case Decide(q, at, outcome, stores) =>
      var landed := s.(now := at, flying := s.flying - {q});
      (match outcome
       case Wrong => if stores then Fail(landed, at) else landed
       case Right => landed.(row := if stores then None else s.row, since := [])
       case Aborted => landed)
    case Look(q, at) =>
      s.(now := at, flying := s.flying[q := Saving(Failed(s.row, at).value, Record(s.row, at))])
    case Save(q, at, stores) =>
      var landed := s.(now := at, flying := s.flying - {q});
      if stores then landed.(row := Some(s.flying[q].attempt), since := s.since + [s.flying[q].failure]) else landed
  }

  ghost predicate Runs(c: nat, s: State, steps: seq<Step>, t: State)
    decreases |steps|
  {
    if steps == [] then s == t
    else Enabled(c, s, steps[0]) && Runs(c, Apply(c, s, steps[0]), steps[1..], t)
  }

  // While a request stands between its Look and its Save, no other one looks,
  // decides or saves; it may well be let in.
  predicate Apart(s: State, step: Step) {
    forall q :: q in s.flying && s.flying[q].Saving? ==>
      step.Sweep? || step.Admit? || (step.Save? && step.request == q)
  }

  // A run in which the recordings of failures do not overlap.
  ghost predicate RunsApart(c: nat, s: State, steps: seq<Step>, t: State)
    decreases |steps|
  {
    if steps == [] then s == t
    else Enabled(c, s, steps[0]) && Apart(s, steps[0]) && RunsApart(c, Apply(c, s, steps[0]), steps[1..], t)
  }

  ghost predicate AllSerial(steps: seq<Step>) {
    forall step :: step in steps ==> Serial(step)
  }

  predicate NobodySaves(s: State) {
    forall q :: q in s.flying ==> s.flying[q].Undecided?
  }

  // What is read and saved at once overlaps with nothing.
  lemma {:induction false} SerialIsApart(c: nat, s: State, steps: seq<Step>, t: State)
    requires AllSerial(steps) && Runs(c, s, steps, t) && NobodySaves(s)
    ensures RunsApart(c, s, steps, t)
    decreases |steps|
  {
    if steps != [] {
      assert Serial(steps[0]);
      SerialIsApart(c, Apply(c, s, steps[0]), steps[1..], t);
    }
  }

  lemma {:induction false} OneFlies(s: State, p: nat, q: nat)
    requires |s.flying| <= 1 && p in s.flying && q in s.flying
    ensures p == q
  {
    var others := s.flying.Keys - {p};
    assert |others| == |s.flying.Keys| - 1;
  }

  lemma {:induction false} StaysOne(s: State, step: Step)
    requires |s.flying| <= 1 && Enabled(1, s, step)
    ensures |Apply(1, s, step).flying| <= 1 && Apart(s, step)
  {
    var t := Apply(1, s, step);
    match step {
      case Sweep(_) =>
      case Admit(q, _, _, _) => assert t.flying.Keys <= {q};
      case Look(q, _) => assert t.flying.Keys == s.flying.Keys;
      case _ => assert t.flying.Keys == s.flying.Keys - {step.request};
    }
    forall q | q in s.flying && s.flying[q].Saving?
      ensures step.Sweep? || step.Admit? || (step.Save? && step.request == q)
    {
      if !step.Sweep? && !step.Admit? {
        OneFlies(s, step.request, q);
      }
    }
  }

  // Requests that come one after the other do not overlap.
  lemma {:induction false} OneAtATimeIsApart(s: State, steps: seq<Step>, t: State)
    requires |s.flying| <= 1 && Runs(1, s, steps, t)
    ensures RunsApart(1, s, steps, t)
    decreases |steps|
  {
    if steps != [] {
      StaysOne(s, steps[0]);
      OneAtATimeIsApart(Apply(1, s, steps[0]), steps[1..], t);
    }
  }

  const NOBODY := State(0, None, map[], [])

  lemma {:induction false} RunsOne(c: nat, s: State, step: Step)
    requires Enabled(c, s, step)
    ensures Runs(c, s, [step], Apply(c, s, step))
  {
    assert [step][1..] == [];
  }

  lemma {:induction false} RunsFrom(c: nat, s: State, step: Step, rest: seq<Step>, t: State)
    requires Enabled(c, s, step) && Runs(c, Apply(c, s, step), rest, t)
    ensures Runs(c, s, [step] + rest, t)
  {
    assert ([step] + rest)[1..] == rest;
  }

  lemma {:induction false} FirstRuns(c: nat, s: State, steps: seq<Step>, t: State)
    requires steps != [] && Runs(c, s, steps, t)
    ensures Enabled(c, s, steps[0]) && Runs(c, Apply(c, s, steps[0]), steps[1..], t)
  {
  }

  lemma {:induction false} RunsOn(c: nat, s: State, a: seq<Step>, t: State, b: seq<Step>, u: State)
    requires Runs(c, s, a, t) && Runs(c, t, b, u)
    ensures Runs(c, s, a + b, u)
    decreases |a|
  {
    if a == [] {
      assert a + b == b;
    } else {
      FirstRuns(c, s, a, t);
      var step, rest := a[0], a[1..];
      assert a + b == [step] + (rest + b);
      RunsOn(c, Apply(c, s, step), rest, t, b, u);
      RunsFrom(c, s, step, rest + b, u);
    }
  }

  /** Recording a failure undisturbed: to look and then save is to do both at once. */
  lemma {:induction false} LookThenSave(c: nat, s: State, q: nat, at: int, later: int, stores: bool)
    requires Enabled(c, s, Look(q, at)) && at <= later
    ensures
      var looked := Apply(c, s, Look(q, at));
      && Enabled(c, looked, Save(q, later, stores)) && Enabled(c, s, Decide(q, at, Wrong, stores))
      && Apply(c, looked, Save(q, later, stores)) == Apply(c, s, Decide(q, at, Wrong, stores)).(now := later)
  {
    var looked := Apply(c, s, Look(q, at));
    assert looked.flying - {q} == s.flying - {q};
  }

  // The steps of one uninterrupted login.
  function StepsOf(row: Row, try: Try, q: nat): seq<Step> {
    [Admit(q, try.admittedAt, try.cleans, try.readable)] +
    if !LetIn(row, try) then []
    else (if try.sweptAt.Some? then [Sweep(try.sweptAt.value)] else []) +
         [Decide(q, try.decidedAt, try.outcome, try.stores)]
  }

  predicate InOrder(try: Try) {
    && try.admittedAt <= try.decidedAt
    && (try.sweptAt.Some? ==> try.admittedAt <= try.sweptAt.value <= try.decidedAt)
  }

  /** A login that nobody interrupts is a run of these steps, to the row that Login
      leaves. */
  lemma {:induction false} LoginIsARun(s: State, try: Try) returns (t: State)
    requires s.flying == map[] && s.now <= try.admittedAt && InOrder(try)
    ensures Runs(1, s, StepsOf(s.row, try, 0), t) && t.row == AfterTry(s.row, try) && t.flying == map[]
  {
    var admit := Admit(0, try.admittedAt, try.cleans, try.readable);
    t := Apply(1, s, admit);
    RunsOne(1, s, admit);
    if LetIn(s.row, try) {
      var steps := [admit];
      if try.sweptAt.Some? {
        var sweep := Sweep(try.sweptAt.value);
        RunsOne(1, t, sweep);
        RunsOn(1, s, steps, t, [sweep], Apply(1, t, sweep));
        steps, t := steps + [sweep], Apply(1, t, sweep);
      }
      var decide := Decide(0, try.decidedAt, try.outcome, try.stores);
      RunsOne(1, t, decide);
      RunsOn(1, s, steps, t, [decide], Apply(1, t, decide));
      assert StepsOf(s.row, try, 0) == steps + [decide];
      t := Apply(1, t, decide);
    } else {
      assert StepsOf(s.row, try, 0) == [admit];
    }
  }

  // ------------------------------------------------------------- invariant

  // The most failures a window takes when `c` requests may be under way: each
  // request let in below the limit may still add its own.
  function Most(c: nat): nat {
    MAX_FAILURES - 1 + c
  }

  // b was recorded right after a: later in the same window, or first of a later one.
  predicate Follows(a: Failure, b: Failure) {
    && a.at <= b.at
    && (if b.ordinal == 0 then b.windowStart == b.at && a.windowStart + WINDOW <= b.windowStart
        else b.windowStart == a.windowStart && b.ordinal == a.ordinal + 1)
  }

  predicate WellFormed(c: nat, f: Failure) {
    f.windowStart <= f.at < f.windowStart + WINDOW && f.ordinal < Most(c) &&
    (f.ordinal == 0 ==> f.at == f.windowStart)
  }

  predicate Chain(since: seq<Failure>) {
    forall k :: 0 < k < |since| ==> Follows(since[k - 1], since[k])
  }

  predicate AllFormed(c: nat, now: int, since: seq<Failure>) {
    forall k :: 0 <= k < |since| ==> WellFormed(c, since[k]) && since[k].at <= now
  }

  // The row is the last failure's, or that failure's window is over.
  predicate Agrees(row: Row, now: int, since: seq<Failure>) {
    since != [] ==>
      var last := since[|since| - 1];
      if row.Some? then row.value == Attempt(last.ordinal + 1, last.windowStart + WINDOW)
      else last.windowStart + WINDOW <= now
  }

  // What is counted, and what the requests under way may still add.
  predicate Bounded(c: nat, s: State) {
    && |s.flying| <= c
    && NobodySaves(s)
    && (s.row.Some? ==> 0 < s.row.value.failures <= Most(c) && s.row.value.expiresAt <= s.now + WINDOW)
    && (Live(s.row, s.now) ==> s.row.value.failures + |s.flying| <= Most(c))
  }

  predicate Inv(c: nat, s: State) {
    Bounded(c, s) && Chain(s.since) && AllFormed(c, s.now, s.since) && Agrees(s.row, s.now, s.since)
  }

  // Time passes, and a counter that has expired may go.
  lemma {:induction false} InvLater(c: nat, s: State, row: Row, now: int)
    requires Inv(c, s) && s.now <= now
    requires row == s.row || (row == None && s.row.Some? && s.row.value.expiresAt <= now)
    ensures Inv(c, s.(now := now, row := row))
  {
  }

  // A request lands without a trace.
  lemma {:induction false} InvLands(c: nat, s: State, q: nat)
    requires Inv(c, s) && q in s.flying
    ensures Inv(c, s.(flying := s.flying - {q})) && |s.flying - {q}| == |s.flying| - 1
  {
    assert (s.flying - {q}).Keys == s.flying.Keys - {q};
  }

  lemma {:induction false} FailureFollows(c: nat, s: State)
    requires Inv(c, s) && (Live(s.row, s.now) ==> s.row.value.failures < Most(c))
    ensures WellFormed(c, Record(s.row, s.now))
    ensures s.since != [] ==> Follows(s.since[|s.since| - 1], Record(s.row, s.now))
  {
  }

  lemma {:induction false} ChainMore(c: nat, now: int, since: seq<Failure>, f: Failure)
    requires Chain(since) && AllFormed(c, now, since) && WellFormed(c, f) && f.at <= now
    requires since != [] ==> Follows(since[|since| - 1], f)
    ensures Chain(since + [f]) && AllFormed(c, now, since + [f])
  {
    var more := since + [f];
    forall k | 0 < k < |more| ensures Follows(more[k - 1], more[k]) {
      assert more[k - 1] == since[k - 1];
    }
  }

  // One of the requests that were under way has failed.
  lemma {:induction false} InvFails(c: nat, s: State)
    requires Inv(c, s) && |s.flying| < c
    requires Live(s.row, s.now) ==> s.row.value.failures + |s.flying| < Most(c)
    ensures Inv(c, Fail(s, s.now))
  {
    FailureFollows(c, s);
    ChainMore(c, s.now, s.since, Record(s.row, s.now));
  }

  lemma {:induction false} InvAdmits(c: nat, s: State, q: nat)
    requires Inv(c, s) && q !in s.flying && |s.flying| < c && Admits(s.row, s.now)
    ensures Inv(c, s.(flying := s.flying[q := Undecided]))
  {
    assert s.flying[q := Undecided].Keys == s.flying.Keys + {q};
  }

  lemma {:induction false} InvStep(c: nat, s: State, step: Step)
    requires Inv(c, s) && Enabled(c, s, step) && Serial(step)
    ensures Inv(c, Apply(c, s, step))
  {
    match step
    case Sweep(at) => InvLater(c, s, Cleaned(s.row, at), at);
    case Admit(q, at, cleans, readable) =>
      InvLater(c, s, Swept(s.row, at, cleans), at);
      if readable && Admits(s.row, at) {
        InvAdmits(c, s.(now := at, row := Swept(s.row, at, cleans)), q);
      }
    case Decide(q, at, outcome, stores) => InvDecides(c, s, q, at, outcome, stores);
  }

  lemma {:induction false} InvDecides(c: nat, s: State, q: nat, at: int, outcome: Verdict, stores: bool)
    requires Inv(c, s) && Enabled(c, s, Decide(q, at, outcome, stores))
    ensures Inv(c, Apply(c, s, Decide(q, at, outcome, stores)))
  {
    var later := s.(now := at);
    InvLater(c, s, s.row, at);
    InvLands(c, later, q);
    if outcome.Wrong? && stores {
      InvFails(c, later.(flying := s.flying - {q}));
    }
  }

  // The request that has looked, as if it had not.
  function Back(s: State, q: nat): State {
    s.(flying := s.flying[q := Undecided])
  }

  // What request q is about to save continues the chain, and its window is still
  // the row's unless it is over.
  predicate Held(c: nat, s: State, q: nat) {
    && q in s.flying && s.flying[q].Saving?
    && var (a, f) := (s.flying[q].attempt, s.flying[q].failure);
    && WellFormed(c, f) && f.at <= s.now && a == Attempt(f.ordinal + 1, f.windowStart + WINDOW)
    && (s.since != [] ==> Follows(s.since[|s.since| - 1], f))
    && (a.expiresAt > s.now ==>
      && f.ordinal + |s.flying| <= Most(c)
      && (f.ordinal > 0 ==> s.row == Some(Attempt(f.ordinal, a.expiresAt))))
  }

  ghost predicate InvApart(c: nat, s: State) {
    Inv(c, s) || exists q :: Held(c, s, q) && Inv(c, Back(s, q))
  }

  lemma {:induction false} LookHolds(c: nat, s: State, q: nat, at: int)
    requires Inv(c, s) && Enabled(c, s, Look(q, at))
    ensures
      var t := Apply(c, s, Look(q, at));
      Held(c, t, q) && Inv(c, Back(t, q))
  {
    var later := s.(now := at);
    var t := Apply(c, s, Look(q, at));
    InvLater(c, s, s.row, at);
    InvLands(c, later, q);
    FailureFollows(c, later);
    assert t.flying.Keys == s.flying.Keys;
    assert Back(t, q) == later;
  }

  lemma {:induction false} SweepHolds(c: nat, s: State, q: nat, at: int, ok: bool)
    requires Held(c, s, q) && Inv(c, Back(s, q)) && s.now <= at
    ensures
      var t := s.(now := at, row := Swept(s.row, at, ok));
      Held(c, t, q) && Inv(c, Back(t, q))
  {
    InvLater(c, Back(s, q), Swept(s.row, at, ok), at);
  }

  lemma {:induction false} AdmitHolds(c: nat, s: State, q: nat, p: nat)
    requires Held(c, s, q) && Inv(c, Back(s, q))
    requires p !in s.flying && |s.flying| < c && Admits(s.row, s.now)
    ensures
      var t := s.(flying := s.flying[p := Undecided]);
      Held(c, t, q) && Inv(c, Back(t, q))
  {
    var t := s.(flying := s.flying[p := Undecided]);
    assert t.flying.Keys == s.flying.Keys + {p};
    assert Back(s, q).flying.Keys == s.flying.Keys;
    InvAdmits(c, Back(s, q), p);
    assert Back(t, q) == Back(s, q).(flying := Back(s, q).flying[p := Undecided]);
  }

  lemma {:induction false} SaveRestores(c: nat, s: State, q: nat, at: int, stores: bool)
    requires Held(c, s, q) && Inv(c, Back(s, q)) && Enabled(c, s, Save(q, at, stores))
    ensures Inv(c, Apply(c, s, Save(q, at, stores)))
  {
    var later := Back(s, q).(now := at);
    InvLater(c, Back(s, q), s.row, at);
    InvLands(c, later, q);
    var landed := later.(flying := later.flying - {q});
    assert later.flying.Keys == s.flying.Keys;
    assert later.flying - {q} == s.flying - {q};
    if stores {
      ChainMore(c, at, s.since, s.flying[q].failure);
    }
  }

  lemma {:induction false} HeldStep(c: nat, s: State, q: nat, step: Step)
    requires Held(c, s, q) && Inv(c, Back(s, q)) && Enabled(c, s, step) && Apart(s, step)
    ensures InvApart(c, Apply(c, s, step))
  {
    match step {
      case Sweep(at) => SweepHolds(c, s, q, at, true);
      case Admit(p, at, cleans, readable) =>
        SweepHolds(c, s, q, at, cleans);
        if readable && Admits(s.row, at) {
          AdmitHolds(c, s.(now := at, row := Swept(s.row, at, cleans)), q, p);
        }
      case Save(_, at, stores) => SaveRestores(c, s, q, at, stores);
    }
  }

  lemma {:induction false} InvApartStep(c: nat, s: State, step: Step)
    requires InvApart(c, s) && Enabled(c, s, step) && Apart(s, step)
    ensures InvApart(c, Apply(c, s, step))
  {
    if Inv(c, s) {
      if step.Look? {
        LookHolds(c, s, step.request, step.at);
      } else {
        InvStep(c, s, step);
      }
    } else {
      var q :| Held(c, s, q) && Inv(c, Back(s, q));
      HeldStep(c, s, q, step);
    }
  }

  lemma {:induction false} InvRuns(c: nat, s: State, steps: seq<Step>, t: State)
    requires InvApart(c, s) && RunsApart(c, s, steps, t)
    ensures InvApart(c, t)
    decreases |steps|
  {
    if steps != [] {
      InvApartStep(c, s, steps[0]);
      InvRuns(c, Apply(c, s, steps[0]), steps[1..], t);
    }
  }

  // -------------------------------------------------------------- the bound

  lemma {:induction false} SameWindow(since: seq<Failure>, i: nat, j: nat)
    requires i <= j < |since| && j - i <= since[j].ordinal && Chain(since)
    ensures since[i].windowStart == since[j].windowStart && since[i].ordinal == since[j].ordinal - (j - i)
    decreases j - i
  {
    if i < j {
      SameWindow(since, i + 1, j);
      assert Follows(since[i], since[i + 1]);
    }
  }

  lemma {:induction false} TimesRise(since: seq<Failure>, i: nat, j: nat)
    requires i <= j < |since| && Chain(since)
    ensures since[i].at <= since[j].at
    ensures since[i].windowStart <= since[j].windowStart
    decreases j - i
  {
    if i < j {
      TimesRise(since, i, j - 1);
      assert Follows(since[j - 1], since[j]);
    }
  }

  lemma {:induction false} WindowsAreApart(since: seq<Failure>, i: nat, j: nat)
    requires i <= j < |since| && since[i].windowStart != since[j].windowStart && Chain(since)
    ensures since[i].windowStart + WINDOW <= since[j].windowStart
    decreases j - i
  {
    assert Follows(since[j - 1], since[j]);
    if since[j].ordinal == 0 {
      TimesRise(since, i, j - 1);
    } else {
      WindowsAreApart(since, i, j - 1);
    }
  }

  // A window holds at most as many failures as it takes, so one that many places
  // before lies in an earlier one.
  lemma {:induction false} WindowIsFull(c: nat, now: int, since: seq<Failure>, i: nat, j: nat)
    requires Chain(since) && AllFormed(c, now, since) && i + Most(c) <= j < |since|
    ensures since[i].windowStart + WINDOW <= since[j].windowStart
  {
    var first := j - since[j].ordinal;
    assert WellFormed(c, since[j]);
    SameWindow(since, first, j);
    assert Follows(since[first - 1], since[first]);
    TimesRise(since, i, first - 1);
  }

  /** With two full windows' failures but one, a whole window has passed. */
  lemma {:induction false} TwoWindowsLater(c: nat, now: int, since: seq<Failure>, i: nat)
    requires c > 0 && Chain(since) && AllFormed(c, now, since) && i + 2 * Most(c) - 1 < |since|
    ensures since[i + 2 * Most(c) - 1].at >= since[i].at + WINDOW
  {
    var m := Most(c);
    var j := i + 2 * m - 1;
    assert WellFormed(c, since[i]) && WellFormed(c, since[i + m - 1]) && WellFormed(c, since[j]);
    WindowIsFull(c, now, since, i + m - 1, j);
    if since[i + m - 1].windowStart == since[i].windowStart {
      if since[i].ordinal > 0 {
        SameWindowOrdinal(since, i, i + m - 1);
        assert false;
      }
    } else {
      WindowsAreApart(since, i, i + m - 1);
    }
  }

  lemma {:induction false} SameWindowOrdinal(since: seq<Failure>, i: nat, j: nat)
    requires i <= j < |since| && Chain(since) && since[i].windowStart == since[j].windowStart
    requires forall k :: i <= k <= j ==> since[k].at < since[k].windowStart + WINDOW
    ensures since[j].ordinal == since[i].ordinal + (j - i)
    decreases j - i
  {
    if i < j {
      assert Follows(since[j - 1], since[j]);
      TimesRise(since, i, j - 1);
      SameWindowOrdinal(since, i, j - 1);
    }
  }

  // Failures in the five minutes from `start`.
  function CountFrom(since: seq<Failure>, start: int): nat {
    if since == [] then 0
    else
      var n := |since| - 1;
      CountFrom(since[..n], start) + if start <= since[n].at < start + WINDOW then 1 else 0
  }

  lemma {:induction false} CountWithin(since: seq<Failure>, start: int, lo: nat, hi: nat)
    requires lo <= hi
    requires forall k :: 0 <= k < |since| && start <= since[k].at < start + WINDOW ==> lo <= k < hi
    ensures CountFrom(since, start) <= (if |since| <= lo then 0 else if |since| < hi then |since| - lo else hi - lo)
    decreases |since|
  {
    if since != [] {
      CountWithin(since[..|since| - 1], start, lo, hi);
    }
  }

  // The first of a chain's failures that is not before `start`.
  lemma {:induction false} FirstFrom(since: seq<Failure>, start: int) returns (lo: nat)
    requires Chain(since)
    ensures lo <= |since| && forall k :: 0 <= k < |since| ==> (start <= since[k].at <==> lo <= k)
  {
    lo := 0;
    while lo < |since| && since[lo].at < start
      invariant 0 <= lo <= |since| && forall k :: 0 <= k < lo ==> since[k].at < start
    {
      lo := lo + 1;
    }
    forall k | lo <= k < |since| ensures start <= since[k].at {
      TimesRise(since, lo, k);
    }
  }

  lemma {:induction false} ChainIsSparse(c: nat, now: int, since: seq<Failure>, start: int)
    requires c > 0 && Chain(since) && AllFormed(c, now, since)
    ensures CountFrom(since, start) <= 2 * Most(c) - 1
  {
    var lo := FirstFrom(since, start);
    var hi := lo + 2 * Most(c) - 1;
    forall k | 0 <= k < |since| && start <= since[k].at < start + WINDOW ensures lo <= k < hi {
      if k >= hi {
        TwoWindowsLater(c, now, since, lo);
        TimesRise(since, hi, k);
      }
    }
    CountWithin(since, start, lo, hi);
  }

  // What a state promises: no counter above `most`, no five minutes since the last
  // success with more than `many` failures.
  ghost predicate Within(t: State, most: nat, many: nat) {
    (t.row.Some? ==> t.row.value.failures <= most) && forall start :: CountFrom(t.since, start) <= many
  }

  /** Over any run with at most c requests under way at once, in which no two
      recordings of a failure overlap: no counter exceeds 4 + c, and no five minutes
      since the last success hold more than 7 + 2c failures. */
  lemma {:induction false} FailuresAreBounded(c: nat, steps: seq<Step>, t: State)
    requires c > 0 && RunsApart(c, NOBODY, steps, t)
    ensures Within(t, 4 + c, 7 + 2 * c)
  {
    assert Inv(c, NOBODY);
    InvRuns(c, NOBODY, steps, t);
    forall start ensures CountFrom(t.since, start) <= 7 + 2 * c {
      ChainIsSparse(c, t.now, t.since, start);
    }
  }

  /** One request after the other, each failure read and then saved: five per
      window, nine in five minutes. */
  lemma {:induction false} AtMostNineInFiveMinutes(steps: seq<Step>, t: State)
    requires Runs(1, NOBODY, steps, t)
    ensures Within(t, MAX_FAILURES, 9)
  {
    OneAtATimeIsApart(NOBODY, steps, t);
    FailuresAreBounded(1, steps, t);
  }

  // ------------------------------------------------------- and it is reached

  // n failures in a row.
  function FailAll(s: State, at: int, n: nat): State
    decreases n
  {
    if n == 0 then s else FailAll(Fail(s, at), at, n - 1)
  }

  lemma {:induction false} FailAllMore(s: State, at: int, m: nat, n: nat)
    ensures FailAll(FailAll(s, at, m), at, n) == FailAll(s, at, m + n)
    decreases m
  {
    if m > 0 {
      FailAllMore(Fail(s, at), at, m - 1, n);
    }
  }

  lemma {:induction false} FailAllCounts(s: State, at: int, n: nat, start: int)
    requires n > 0 && s.now <= at
    ensures
      var t := FailAll(s, at, n);
      && t.now == at && t.flying == s.flying
      && t.row == Some(if Live(s.row, at) then Attempt(s.row.value.failures + n, s.row.value.expiresAt)
                       else Attempt(n, at + WINDOW))
      && CountFrom(t.since, start) == CountFrom(s.since, start) + if start <= at < start + WINDOW then n else 0
    decreases n
  {
    var next := Fail(s, at);
    assert next.since[..|s.since|] == s.since;
    if n > 1 {
      FailAllCounts(next, at, n - 1, start);
    }
  }

  function Below(n: nat): (ids: set<nat>)
    ensures forall q: nat :: q in ids <==> q < n
  {
    if n == 0 then {} else Below(n - 1) + {n - 1}
  }

  // n requests, of which the first k have looked.
  function Readers(n: nat, k: nat, held: Request): map<nat, Request> {
    map q | q in Below(n) :: if q < k then held else Undecided
  }

  function Fleet(n: nat): map<nat, Request> {
    Readers(n, 0, Undecided)
  }

  lemma {:induction false} BelowSize(n: nat)
    ensures |Below(n)| == n
  {
    if n > 0 {
      BelowSize(n - 1);
    }
  }

  lemma {:induction false} FleetSize(n: nat)
    ensures |Fleet(n)| == n
  {
    BelowSize(n);
    assert Fleet(n).Keys == Below(n);
  }

  lemma {:induction false} AdmitAll(c: nat, s: State, at: int, n: nat) returns (steps: seq<Step>)
    requires 0 < n <= c && s.flying == map[] && s.now <= at && Admits(s.row, at)
    ensures AllSerial(steps) && Runs(c, s, steps, s.(now := at, row := Cleaned(s.row, at), flying := Fleet(n)))
  {
    steps := [];
    if n > 1 {
      steps := AdmitAll(c, s, at, n - 1);
    }
    var t := if n > 1 then s.(now := at, row := Cleaned(s.row, at), flying := Fleet(n - 1)) else s;
    var admit := Admit(n - 1, at, true, true);
    FleetSize(n - 1);
    assert t.flying == Fleet(n - 1);
    assert Fleet(n) == Fleet(n - 1)[n - 1 := Undecided];
    RunsOne(c, t, admit);
    RunsOn(c, s, steps, t, [admit], Apply(c, t, admit));
    steps := steps + [admit];
  }

  lemma {:induction false} FailFleet(c: nat, s: State, at: int, n: nat) returns (steps: seq<Step>)
    requires n > 0 && s.flying == Fleet(n) && s.now <= at
    ensures AllSerial(steps) && Runs(c, s, steps, FailAll(s.(flying := map[]), at, n))
    decreases n
  {
    var decide := Decide(n - 1, at, Wrong, true);
    var t := Apply(c, s, decide);
    assert Fleet(n) - {n - 1} == Fleet(n - 1);
    assert t == Fail(s, at).(flying := Fleet(n - 1));
    RunsOne(c, s, decide);
    steps := [decide];
    if n > 1 {
      var more := FailFleet(c, t, at, n - 1);
      assert t.(flying := map[]) == Fail(s.(flying := map[]), at);
      RunsOn(c, s, steps, t, more, FailAll(s.(flying := map[]), at, n));
      steps := steps + more;
    } else {
      assert Fleet(0) == map[];
    }
  }

  // As many requests as may be under way are let in together, and all fail.
  lemma {:induction false} Together(c: nat, s: State, at: int, n: nat) returns (steps: seq<Step>)
    requires 0 < n <= c && s.flying == map[] && s.now <= at && Admits(s.row, at)
    ensures AllSerial(steps) && Runs(c, s, steps, FailAll(s, at, n))
  {
    steps := AdmitAll(c, s, at, n);
    var t := s.(now := at, row := Cleaned(s.row, at), flying := Fleet(n));
    var more := FailFleet(c, t, at, n);
    SameFailures(t.(flying := map[]), s, at, n);
    RunsOn(c, s, steps, t, more, FailAll(s, at, n));
    steps := steps + more;
  }

  lemma {:induction false} SameFailures(s: State, t: State, at: int, n: nat)
    requires n > 0 && s.row == Cleaned(t.row, at) && s.flying == t.flying && s.since == t.since
    ensures FailAll(s, at, n) == FailAll(t, at, n)
  {
    assert Fail(s, at) == Fail(t, at);
  }

  // Requests one by one up to the limit, and then as many as may be under way.
  lemma {:induction false} FillWindow(c: nat, s: State, at: int, n: nat) returns (steps: seq<Step>)
    requires c > 0 && s.flying == map[] && s.now <= at && n > 0
    requires Live(s.row, at) ==> s.row.value.failures + n == Most(c)
    requires !Live(s.row, at) ==> n == Most(c)
    requires n >= c
    ensures AllSerial(steps) && Runs(c, s, steps, FailAll(s, at, n))
    decreases n
  {
    if n == c {
      steps := Together(c, s, at, n);
    } else {
      var one := Together(c, s, at, 1);
      FailAllCounts(s, at, 1, 0);
      var t := FailAll(s, at, 1);
      var more := FillWindow(c, t, at, n - 1);
      FailAllMore(s, at, 1, n - 1);
      RunsOn(c, s, one, t, more, FailAll(s, at, n));
      steps := one + more;
    }
  }

  /** The bound is met for every c: a window opens, is filled at its end, and the
      next one is filled at its start. */
  lemma {:induction false} BoundIsReached(c: nat) returns (steps: seq<Step>, t: State)
    requires c > 0
    ensures RunsApart(c, NOBODY, steps, t)
    ensures t.row == Some(Attempt(4 + c, 2 * WINDOW)) && CountFrom(t.since, 1) == 7 + 2 * c
  {
    var begun := FailAll(NOBODY, 0, 1);
    FailAllCounts(NOBODY, 0, 1, 1);
    var opening := Together(c, NOBODY, 0, 1);
    var filled := FailAll(begun, WINDOW - 1, 3 + c);
    FailAllCounts(begun, WINDOW - 1, 3 + c, 1);
    var filling := FillWindow(c, begun, WINDOW - 1, 3 + c);
    t := FailAll(filled, WINDOW, 4 + c);
    FailAllCounts(filled, WINDOW, 4 + c, 1);
    var refilling := FillWindow(c, filled, WINDOW, 4 + c);
    RunsOn(c, NOBODY, opening, begun, filling, filled);
    RunsOn(c, NOBODY, opening + filling, filled, refilling, t);
    steps := opening + filling + refilling;
    SerialIsApart(c, NOBODY, steps, t);
  }

  /** Nine is reached by one request after the other. */
  lemma {:induction false} NineIsReached() returns (steps: seq<Step>, t: State)
    ensures Runs(1, NOBODY, steps, t) && CountFrom(t.since, 1) == 9
  {
    steps, t := BoundIsReached(1);
    ApartRuns(1, NOBODY, steps, t);
  }

  lemma {:induction false} ApartRuns(c: nat, s: State, steps: seq<Step>, t: State)
    requires RunsApart(c, s, steps, t)
    ensures Runs(c, s, steps, t)
    decreases |steps|
  {
    if steps != [] {
      ApartRuns(c, Apply(c, s, steps[0]), steps[1..], t);
    }
  }

  // ---------------------------------------------------- reads and saves apart

  lemma {:induction false} OneReaderMore(n: nat, k: nat, held: Request)
    requires 0 < k <= n
    ensures k - 1 in Readers(n, k - 1, held) && Readers(n, k - 1, held)[k - 1].Undecided?
    ensures Readers(n, k - 1, held)[k - 1 := held] == Readers(n, k, held)
  {
  }

  lemma {:induction false} LookAll(c: nat, s: State, n: nat, k: nat, held: Request) returns (steps: seq<Step>)
    requires k <= n && s.flying == Fleet(n)
    requires held == Saving(Failed(s.row, s.now).value, Record(s.row, s.now))
    ensures Runs(c, s, steps, s.(flying := Readers(n, k, held)))
    decreases k
  {
    steps := [];
    if k > 0 {
      steps := LookAll(c, s, n, k - 1, held);
      var t, look := s.(flying := Readers(n, k - 1, held)), Look(k - 1, s.now);
      OneReaderMore(n, k, held);
      RunsOne(c, t, look);
      RunsOn(c, s, steps, t, [look], Apply(c, t, look));
      steps := steps + [look];
    } else {
      assert Readers(n, 0, held) == Fleet(n);
    }
  }

  // The same failure, n times over.
  function Repeated(f: Failure, n: nat): seq<Failure> {
    seq(n, _ => f)
  }

  lemma {:induction false} RepeatedNext(since: seq<Failure>, f: Failure, n: nat)
    requires n > 0
    ensures since + [f] + Repeated(f, n - 1) == since + Repeated(f, n)
  {
  }

  lemma {:induction false} OneReaderLess(n: nat, held: Request)
    requires n > 0
    ensures n - 1 in Readers(n, n, held) && Readers(n, n, held)[n - 1] == held
    ensures Readers(n, n, held) - {n - 1} == Readers(n - 1, n - 1, held)
  {
  }

  lemma {:induction false} SaveOne(c: nat, s: State, n: nat, a: Attempt, f: Failure)
    requires n > 0 && s.flying == Readers(n, n, Saving(a, f))
    ensures Runs(c, s, [Save(n - 1, s.now, true)],
      State(s.now, Some(a), Readers(n - 1, n - 1, Saving(a, f)), s.since + [f]))
  {
    OneReaderLess(n, Saving(a, f));
    RunsOne(c, s, Save(n - 1, s.now, true));
  }

  lemma {:induction false} SaveAll(c: nat, s: State, n: nat, a: Attempt, f: Failure) returns (steps: seq<Step>)
    requires n > 0 && s.flying == Readers(n, n, Saving(a, f))
    ensures Runs(c, s, steps, State(s.now, Some(a), map[], s.since + Repeated(f, n)))
    decreases n
  {
    steps := [Save(n - 1, s.now, true)];
    var t := State(s.now, Some(a), Readers(n - 1, n - 1, Saving(a, f)), s.since + [f]);
    SaveOne(c, s, n, a, f);
    RepeatedNext(s.since, f, n);
    if n > 1 {
      var more := SaveAll(c, t, n - 1, a, f);
      RunsOn(c, s, steps, t, more, State(s.now, Some(a), map[], s.since + Repeated(f, n)));
      steps := steps + more;
    } else {
      assert s.since + [f] + Repeated(f, 0) == s.since + [f];
    }
  }

  // c requests read the same counter, and it goes up by one.
  lemma {:induction false} OneForAll(c: nat, s: State) returns (steps: seq<Step>)
    requires c > 0 && s.flying == map[] && Live(s.row, s.now) && Admits(s.row, s.now)
    ensures Runs(c, s, steps,
      State(s.now, Failed(s.row, s.now), map[], s.since + Repeated(Record(s.row, s.now), c)))
  {
    var held := Saving(Failed(s.row, s.now).value, Record(s.row, s.now));
    var admitted, read := s.(flying := Fleet(c)), s.(flying := Readers(c, c, held));
    steps := AdmitAll(c, s, s.now, c);
    var looks := LookAll(c, admitted, c, c, held);
    RunsOn(c, s, steps, admitted, looks, read);
    var saves := SaveAll(c, read, c, held.attempt, held.failure);
    RunsOn(c, s, steps + looks, read, saves,
      State(s.now, Failed(s.row, s.now), map[], s.since + Repeated(Record(s.row, s.now), c)));
    steps := steps + looks + saves;
  }

  lemma {:induction false} CountRepeated(since: seq<Failure>, f: Failure, n: nat, start: int)
    requires start <= f.at < start + WINDOW
    ensures CountFrom(since + Repeated(f, n), start) == CountFrom(since, start) + n
  {
    if n == 0 {
      assert since + Repeated(f, 0) == since;
    } else {
      CountRepeated(since, f, n - 1, start);
      var all := since + Repeated(f, n);
      assert all[..|all| - 1] == since + Repeated(f, n - 1);
    }
  }

  /** A failure is read and saved in two accesses. If the requests under way all
      read before any of them saves, their failures count as one: one and four
      times c failures happen at one instant before the counter says five. */
  lemma {:induction false} LostUpdatesPassTheBound(c: nat) returns (steps: seq<Step>, t: State)
    requires c > 0
    ensures Runs(c, NOBODY, steps, t)
    ensures t.now == 0 && t.row == Some(Attempt(5, WINDOW)) && CountFrom(t.since, 0) == 1 + 4 * c
  {
    t := FailAll(NOBODY, 0, 1);
    FailAllCounts(NOBODY, 0, 1, 0);
    steps := Together(c, NOBODY, 0, 1);
    for k := 1 to 5
      invariant Runs(c, NOBODY, steps, t)
      invariant t == State(0, Some(Attempt(k, WINDOW)), map[], t.since)
      invariant CountFrom(t.since, 0) == 1 + (k - 1) * c
    {
      var more, u := CountUp(c, t, k);
      RunsOn(c, NOBODY, steps, t, more, u);
      steps, t := steps + more, u;
    }
  }

  lemma {:induction false} CountUp(c: nat, s: State, k: nat) returns (steps: seq<Step>, t: State)
    requires c > 0 && 0 < k < 5 && s == State(0, Some(Attempt(k, WINDOW)), map[], s.since)
    ensures Runs(c, s, steps, t) && t == State(0, Some(Attempt(k + 1, WINDOW)), map[], t.since)
    ensures CountFrom(t.since, 0) == CountFrom(s.since, 0) + c
  {
    var f := Record(s.row, 0);
    steps := OneForAll(c, s);
    t := State(0, Failed(s.row, 0), map[], s.since + Repeated(f, c));
    CountRepeated(s.since, f, c, 0);
  }

  // Request q comes, fails and goes while others are under way.
  lemma {:induction false} ComesAndFails(c: nat, s: State, q: nat) returns (steps: seq<Step>)
    requires q !in s.flying && |s.flying| < c && Live(s.row, s.now) && Admits(s.row, s.now)
    ensures Runs(c, s, steps, Fail(s, s.now))
  {
    var admit, decide := Admit(q, s.now, true, true), Decide(q, s.now, Wrong, true);
    var t := Apply(c, s, admit);
    RunsOne(c, s, admit);
    RunsOne(c, t, decide);
    assert t.flying - {q} == s.flying;
    RunsOn(c, s, [admit], t, [decide], Fail(s, s.now));
    steps := [admit] + [decide];
  }

  lemma {:induction false} FailsInARow(c: nat, s: State, q: nat, n: nat) returns (steps: seq<Step>)
    requires q !in s.flying && |s.flying| < c && Live(s.row, s.now)
    requires s.row.value.failures + n <= MAX_FAILURES
    ensures Runs(c, s, steps, FailAll(s, s.now, n))
    decreases n
  {
    steps := [];
    if n > 0 {
      var one := ComesAndFails(c, s, q);
      var t := Fail(s, s.now);
      var more := FailsInARow(c, t, q, n - 1);
      RunsOn(c, s, one, t, more, FailAll(s, s.now, n));
      steps := one + more;
    }
  }

  lemma {:induction false} SavesAlone(c: nat, s: State, a: Attempt, f: Failure) returns (t: State)
    requires s.flying == map[0 := Saving(a, f)] && s.now == f.at == 0
    ensures Runs(c, s, [Save(0, 0, true)], t) && t == State(0, Some(a), map[], t.since)
    ensures CountFrom(t.since, 0) == CountFrom(s.since, 0) + 1
  {
    t := State(0, Some(a), map[], s.since + [f]);
    assert s.flying - {0} == map[];
    RunsOne(c, s, Save(0, 0, true));
    assert t.since[..|s.since|] == s.since;
  }

  // Request 1 fills the counter while another is under way.
  lemma {:induction false} FillsUp(c: nat, s: State, k: nat) returns (steps: seq<Step>, t: State)
    requires 0 < k < 5 && s.now == 0 && s.row == Some(Attempt(k, WINDOW)) && 1 !in s.flying && |s.flying| < c
    ensures Runs(c, s, steps, t) && t.now == 0 && t.flying == s.flying
    ensures CountFrom(t.since, 0) == CountFrom(s.since, 0) + 5 - k
  {
    t := FailAll(s, 0, 5 - k);
    steps := FailsInARow(c, s, 1, 5 - k);
    FailAllCounts(s, 0, 5 - k, 0);
  }

  // One request looks, and another fills the counter.
  lemma {:induction false} LooksAndFills(c: nat, s: State, k: nat, held: Request) returns (steps: seq<Step>, t: State)
    requires c > 1 && 0 < k < 5 && s == State(0, Some(Attempt(k, WINDOW)), map[], s.since)
    requires held == Saving(Attempt(k + 1, WINDOW), Failure(0, 0, k))
    ensures Runs(c, s, steps, t) && t.now == 0 && t.flying == map[0 := held]
    ensures CountFrom(t.since, 0) == CountFrom(s.since, 0) + 5 - k
  {
    var looked := s.(flying := map[0 := held]);
    steps := LooksAlone(c, s, held);
    var filling;
    filling, t := FillsUp(c, looked, k);
    RunsOn(c, s, steps, looked, filling, t);
    steps := steps + filling;
  }

  // And then the first saves its old count.
  lemma {:induction false} StaleRound(c: nat, s: State, k: nat) returns (steps: seq<Step>, t: State)
    requires c > 1 && 0 < k < 5 && s == State(0, Some(Attempt(k, WINDOW)), map[], s.since)
    ensures Runs(c, s, steps, t) && t == State(0, Some(Attempt(k + 1, WINDOW)), map[], t.since)
    ensures CountFrom(t.since, 0) == CountFrom(s.since, 0) + 6 - k
  {
    var a, f := Attempt(k + 1, WINDOW), Failure(0, 0, k);
    var full;
    steps, full := LooksAndFills(c, s, k, Saving(a, f));
    t := SavesAlone(c, full, a, f);
    RunsOn(c, s, steps, full, [Save(0, 0, true)], t);
    steps := steps + [Save(0, 0, true)];
  }

  lemma {:induction false} LooksAlone(c: nat, s: State, held: Request) returns (steps: seq<Step>)
    requires c > 0 && s.flying == map[] && Live(s.row, s.now) && Admits(s.row, s.now)
    requires held == Saving(Failed(s.row, s.now).value, Record(s.row, s.now))
    ensures Runs(c, s, steps, s.(flying := map[0 := held]))
  {
    var admit, look := Admit(0, s.now, true, true), Look(0, s.now);
    var t := Apply(c, s, admit);
    RunsOne(c, s, admit);
    RunsOne(c, t, look);
    RunsOn(c, s, [admit], t, [look], s.(flying := map[0 := held]));
    steps := [admit] + [look];
  }

  /** Two requests are enough: fifteen failures happen at one instant, and the
      counter says five. */
  lemma {:induction false} StaleSavesPassTheBound(c: nat) returns (steps: seq<Step>, t: State)
    requires c > 1
    ensures Runs(c, NOBODY, steps, t)
    ensures t.now == 0 && t.row == Some(Attempt(5, WINDOW)) && CountFrom(t.since, 0) == 15
  {
    t := FailAll(NOBODY, 0, 1);
    FailAllCounts(NOBODY, 0, 1, 0);
    steps := Together(c, NOBODY, 0, 1);
    steps, t := RoundOn(c, steps, t, 1, 1);
    steps, t := RoundOn(c, steps, t, 2, 6);
    steps, t := RoundOn(c, steps, t, 3, 10);
    steps, t := RoundOn(c, steps, t, 4, 13);
  }

  // A run at whose end the counter says k, after n failures.
  ghost predicate Stands(c: nat, steps: seq<Step>, t: State, k: nat, n: nat) {
    Runs(c, NOBODY, steps, t) && t == State(0, Some(Attempt(k, WINDOW)), map[], t.since) && CountFrom(t.since, 0) == n
  }

  lemma {:induction false} RoundOn(c: nat, before: seq<Step>, s: State, k: nat, n: nat)
    returns (steps: seq<Step>, t: State)
    requires c > 1 && 0 < k < 5 && Stands(c, before, s, k, n)
    ensures Stands(c, steps, t, k + 1, n + 6 - k)
  {
    steps, t := StaleRound(c, s, k);
    RunsOn(c, NOBODY, before, s, steps, t);
    steps := before + steps;
  }

  // ------------------------------------------------------- the exact condition

  // Every run with at most c requests under way keeps within these limits.
  ghost predicate Keeps(c: nat, most: nat, many: nat) {
    forall steps, t :: Runs(c, NOBODY, steps, t) ==> Within(t, most, many)
  }

  /** With reads and saves as they are, five and nine hold of every run exactly when
      requests come one after the other; and so do the limits that more requests
      under way would keep to if their recordings did not overlap. */
  lemma {:induction false} OnlyOneAtATimeKeeps(c: nat)
    requires c > 0
    ensures Keeps(c, MAX_FAILURES, 9) <==> c == 1
    ensures Keeps(c, 4 + c, 7 + 2 * c) <==> c == 1
  {
    if c == 1 {
      forall steps, t | Runs(1, NOBODY, steps, t) ensures Within(t, MAX_FAILURES, 9) {
        AtMostNineInFiveMinutes(steps, t);
      }
    } else {
      var steps, t := StaleSavesPassTheBound(c);
      assert !Within(t, MAX_FAILURES, 9);
      if c > 3 {
        steps, t := LostUpdatesPassTheBound(c);
      }
      assert !Within(t, 4 + c, 7 + 2 * c);
    }
  }
}
