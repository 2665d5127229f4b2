/**
 The batch translator: items cut into batches, one goroutine a batch, at most four
 at a time, results through a buffered channel into one map.

 The model's answer to a batch is arbitrary but fixed: a map or a failure.
 */
module TranslateBatches {
  import opened Common

  const BATCH_SIZE: nat := 25
  const MAX_WORKERS: nat := 4

  // --------------------------------------------------------------- slicing

  function Flatten<T>(batches: seq<seq<T>>): seq<T> {
    if batches == [] then [] else Flatten(batches[..|batches| - 1]) + batches[|batches| - 1]
  }

  method Slice<T>(items: seq<T>) returns (batches: seq<seq<T>>)
    ensures Flatten(batches) == items
    ensures forall k :: 0 <= k < |batches| ==> 0 < |batches[k]| <= BATCH_SIZE
    ensures forall k :: 0 <= k < |batches| - 1 ==> |batches[k]| == BATCH_SIZE
  {
    batches := [];
    var i := 0;
    while i < |items|
      invariant 0 <= i <= |items| && Flatten(batches) == items[..i]
      invariant SizesFit(batches, i < |items|)
    {
      var end := if i + BATCH_SIZE > |items| then |items| else i + BATCH_SIZE;
      NextSlice(batches, items, i, end);
      NextSize(batches, items[i..end], end < |items|);
      batches := batches + [items[i..end]];
      i := end;
    }
    assert items[..i] == items;
  }

  // No batch is empty or too large, and all are full but possibly the last.
  ghost predicate SizesFit<T>(batches: seq<seq<T>>, more: bool) {
    && (forall k :: 0 <= k < |batches| ==> 0 < |batches[k]| <= BATCH_SIZE)
    && (forall k :: 0 <= k < |batches| - (if more then 0 else 1) ==> |batches[k]| == BATCH_SIZE)
  }

  lemma {:induction false} NextSize<T>(batches: seq<seq<T>>, batch: seq<T>, more: bool)
    requires SizesFit(batches, true) && 0 < |batch| <= BATCH_SIZE && (more ==> |batch| == BATCH_SIZE)
    ensures SizesFit(batches + [batch], more)
  {
  }

  lemma {:induction false} FlattenMore<T>(batches: seq<seq<T>>, batch: seq<T>)
    ensures Flatten(batches + [batch]) == Flatten(batches) + batch
  {
    assert (batches + [batch])[..|batches|] == batches;
  }

  lemma {:induction false} NextSlice<T>(batches: seq<seq<T>>, items: seq<T>, i: nat, end: nat)
    requires i <= end <= |items| && Flatten(batches) == items[..i]
    ensures Flatten(batches + [items[i..end]]) == items[..end]
  {
    assert items[..i] + items[i..end] == items[..end];
    FlattenMore(batches, items[i..end]);
  }

  // ------------------------------------------------------------ one schedule

  // A batch's answer: its translations, or None if the call failed.
  type Answer<!V> = Option<map<string, V>>

  datatype Worker =
    | Translating   // holds a slot, has not answered
    | Answered      // its result is in the channel, the slot is still held
    | Freed         // the slot is released
    | Done          // left the wait group

  datatype Phase = Launching | Waiting | Draining | Finished

  datatype State<!V> = State(
    phase: Phase,
    workers: seq<Worker>,
    slots: nat,             // taken slots of the semaphore
    waiting: nat,           // count of the wait group
    channel: seq<nat>,      // batches whose result is buffered
    closed: bool,
    merged: map<string, V>)

  datatype Step = Launch | StopLaunching | Answer(i: nat) | Free(i: nat) | Leave(i: nat) | Close | Drain | Finish

  function Begin<V>(): State<V> {
    State(Launching, [], 0, 0, [], false, map[])
  }

  predicate Enabled<V>(s: State<V>, n: nat, step: Step) {
    match step
    case Launch => s.phase == Launching && |s.workers| < n && s.slots < MAX_WORKERS
    case StopLaunching => s.phase == Launching && |s.workers| == n
    case Answer(i) => i < |s.workers| && s.workers[i] == Translating && |s.channel| < n
    case Free(i) => i < |s.workers| && s.workers[i] == Answered && s.slots > 0
    case Leave(i) => i < |s.workers| && s.workers[i] == Freed && s.waiting > 0
    case Close => s.phase == Waiting && s.waiting == 0
    case Drain => s.phase == Draining && s.channel != []
    case Finish => s.phase == Draining && s.channel == [] && s.closed
  }

  function Merge<V>(merged: map<string, V>, answer: Answer<V>): map<string, V> {
    match answer
    case Some(m) => merged + m
    case None => merged
  }

  function Apply<V>(s: State<V>, answers: seq<Answer<V>>, step: Step): State<V>
    requires Enabled(s, |answers|, step)
  {
    match step
    case Launch => s.(workers := s.workers + [Translating], slots := s.slots + 1, waiting := s.waiting + 1)
    case StopLaunching => s.(phase := Waiting)
    case Answer(i) => s.(workers := s.workers[i := Answered], channel := s.channel + [i])
    case Free(i) => s.(workers := s.workers[i := Freed], slots := s.slots - 1)
    case Leave(i) => s.(workers := s.workers[i := Done], waiting := s.waiting - 1)
    case Close => s.(closed := true, phase := Draining)
    case Drain =>
      var b := s.channel[0];
      s.(channel := s.channel[1..], merged := Merge(s.merged, if b < |answers| then answers[b] else None))
    case Finish => s.(phase := Finished)
  }

  // -------------------------------------------------------------- invariant

  function Count(workers: seq<Worker>, which: set<Worker>): nat {
    if workers == [] then 0
    else Count(workers[..|workers| - 1], which) + if workers[|workers| - 1] in which then 1 else 0
  }

  lemma {:induction false} CountUpdate(workers: seq<Worker>, i: nat, w: Worker, which: set<Worker>)
    requires i < |workers|
    ensures Count(workers[i := w], which) ==
      Count(workers, which) - (if workers[i] in which then 1 else 0) + (if w in which then 1 else 0)
    decreases |workers|
  {
    var n := |workers| - 1;
    if i == n {
      assert workers[i := w][..n] == workers[..n];
    } else {
      assert workers[i := w][..n] == workers[..n][i := w];
      CountUpdate(workers[..n], i, w, which);
    }
  }

  lemma {:induction false} CountAppend(workers: seq<Worker>, w: Worker, which: set<Worker>)
    ensures Count(workers + [w], which) == Count(workers, which) + if w in which then 1 else 0
  {
    assert (workers + [w])[..|workers|] == workers;
  }

  lemma {:induction false} CountZero(workers: seq<Worker>, which: set<Worker>)
    ensures Count(workers, which) == 0 <==> forall i :: 0 <= i < |workers| ==> workers[i] !in which
    decreases |workers|
  {
    if workers != [] {
      var n := |workers| - 1;
      CountZero(workers[..n], which);
      assert forall i :: 0 <= i < n ==> workers[..n][i] == workers[i];
    }
  }

  const HOLDING: set<Worker> := {Translating, Answered}
  const PRESENT: set<Worker> := {Translating, Answered, Freed}

  function Indices(n: nat): (r: set<nat>)
    ensures forall b: nat :: b in r <==> b < n
  {
    if n == 0 then {} else Indices(n - 1) + {n - 1}
  }

  predicate Gives<V>(answers: seq<Answer<V>>, b: nat, k: string) {
    b < |answers| && answers[b].Some? && k in answers[b].value
  }

  // No two batches that succeed give one key different texts; disjoint keys do.
  ghost predicate Compatible<V>(answers: seq<Answer<V>>) {
    forall i: nat, j: nat, k: string ::
      (Gives(answers, i, k) && Gives(answers, j, k)) ==> answers[i].value[k] == answers[j].value[k]
  }

  // What m holds for k is some batch's answer, and nothing is missing.
  ghost predicate UnionAt<V>(m: map<string, V>, answers: seq<Answer<V>>, batches: set<nat>, k: string) {
    if k in m then exists b :: b in batches && Gives(answers, b, k) && answers[b].value[k] == m[k]
    else forall b :: b in batches ==> !Gives(answers, b, k)
  }

  // m holds exactly the answers of these batches.
  ghost predicate IsUnion<V>(m: map<string, V>, answers: seq<Answer<V>>, batches: set<nat>) {
    forall k :: UnionAt(m, answers, batches, k)
  }

  lemma {:induction false} UnionsAgreeAt<V>(
    m: map<string, V>, m': map<string, V>, answers: seq<Answer<V>>, batches: set<nat>, k: string)
    requires Compatible(answers) && UnionAt(m, answers, batches, k) && UnionAt(m', answers, batches, k)
    ensures k in m <==> k in m'
    ensures k in m ==> m[k] == m'[k]
  {
    if k in m && k in m' {
      var b :| b in batches && Gives(answers, b, k) && answers[b].value[k] == m[k];
      var c :| c in batches && Gives(answers, c, k) && answers[c].value[k] == m'[k];
    }
  }

  /** A union is determined by its batches, so schedules cannot differ in it. */
  lemma {:induction false} UnionIsUnique<V>(
    m: map<string, V>, m': map<string, V>, answers: seq<Answer<V>>, batches: set<nat>)
    requires Compatible(answers) && IsUnion(m, answers, batches) && IsUnion(m', answers, batches)
    ensures m == m'
  {
    forall k ensures (k in m <==> k in m') && (k in m ==> m[k] == m'[k]) {
      assert UnionAt(m, answers, batches, k) && UnionAt(m', answers, batches, k);
      UnionsAgreeAt(m, m', answers, batches, k);
    }
  }

  lemma {:induction false} MergeIsUnion<V>(m: map<string, V>, answers: seq<Answer<V>>, batches: set<nat>, b: nat)
    requires IsUnion(m, answers, batches) && b < |answers|
    ensures IsUnion(Merge(m, answers[b]), answers, batches + {b})
  {
    var merged := Merge(m, answers[b]);
    forall k ensures UnionAt(merged, answers, batches + {b}, k) {
      assert UnionAt(m, answers, batches, k);
      if Gives(answers, b, k) {
        assert b in batches + {b};
      } else if k in m {
        var c :| c in batches && Gives(answers, c, k) && answers[c].value[k] == m[k];
        assert c in batches + {b};
      }
    }
  }

  // The batches whose result has left the channel again.
  function Drained<V>(s: State<V>): set<nat> {
    set i: nat | i < |s.workers| && s.workers[i] != Translating && i !in s.channel
  }

  // Slots and wait group count what they should, and the phases follow.
  ghost predicate Counted<V>(s: State<V>, n: nat) {
    && |s.workers| <= n
    && s.slots == Count(s.workers, HOLDING) && s.slots <= MAX_WORKERS
    && s.waiting == Count(s.workers, PRESENT)
    && (s.phase != Launching ==> |s.workers| == n)
    && (s.closed <==> s.phase == Draining || s.phase == Finished)
    && (s.closed ==> s.waiting == 0)
  }

  ghost predicate Buffered<V>(s: State<V>, answers: seq<Answer<V>>) {
    && (forall i, j :: 0 <= i < j < |s.channel| ==> s.channel[i] != s.channel[j])
    && (forall k :: 0 <= k < |s.channel| ==> s.channel[k] < |s.workers| && s.workers[s.channel[k]] != Translating)
    && (!s.closed ==> Drained(s) == {})
    && (s.phase == Finished ==> s.channel == [])
    && IsUnion(s.merged, answers, Drained(s))
  }

  ghost predicate Inv<V>(s: State<V>, answers: seq<Answer<V>>) {
    Counted(s, |answers|) && Buffered(s, answers)
  }

  lemma {:induction false} CountedStep<V>(s: State<V>, answers: seq<Answer<V>>, step: Step)
    requires Inv(s, answers) && Enabled(s, |answers|, step)
    ensures Counted(Apply(s, answers, step), |answers|)
  {
    match step {
      case Launch => CountAppend(s.workers, Translating, HOLDING); CountAppend(s.workers, Translating, PRESENT);
      case Answer(i) =>
        CountUpdate(s.workers, i, Answered, HOLDING);
        CountUpdate(s.workers, i, Answered, PRESENT);
        CountZero(s.workers, PRESENT);
      case Free(i) => CountUpdate(s.workers, i, Freed, HOLDING); CountUpdate(s.workers, i, Freed, PRESENT);
      case Leave(i) => CountUpdate(s.workers, i, Done, HOLDING); CountUpdate(s.workers, i, Done, PRESENT);
      case _ =>
    }
  }

  lemma {:induction false} BufferedAnswer<V>(s: State<V>, answers: seq<Answer<V>>, i: nat)
    requires Inv(s, answers) && Enabled(s, |answers|, Answer(i))
    ensures Buffered(Apply(s, answers, Answer(i)), answers)
  {
    var t := Apply(s, answers, Answer(i));
    CountZero(s.workers, PRESENT);
    assert t.channel[|s.channel|] == i && forall b :: b in s.channel ==> b in t.channel;
    assert Drained(t) == Drained(s);
  }

  lemma {:induction false} BufferedDrain<V>(s: State<V>, answers: seq<Answer<V>>)
    requires Inv(s, answers) && Enabled(s, |answers|, Drain)
    ensures Buffered(Apply(s, answers, Drain), answers)
  {
    var t := Apply(s, answers, Drain);
    var b := s.channel[0];
    assert s.channel == [b] + t.channel;
    assert Drained(t) == Drained(s) + {b};
    MergeIsUnion(s.merged, answers, Drained(s), b);
  }

  lemma {:induction false} BufferedStep<V>(s: State<V>, answers: seq<Answer<V>>, step: Step)
    requires Inv(s, answers) && Enabled(s, |answers|, step)
    ensures Buffered(Apply(s, answers, step), answers)
  {
    match step {
      case Answer(i) => BufferedAnswer(s, answers, i);
      case Drain => BufferedDrain(s, answers);
      case _ =>
        assert Drained(Apply(s, answers, step)) == Drained(s);
    }
  }

  lemma {:induction false} InvStep<V>(s: State<V>, answers: seq<Answer<V>>, step: Step)
    requires Inv(s, answers) && Enabled(s, |answers|, step)
    ensures Inv(Apply(s, answers, step), answers)
  {
    CountedStep(s, answers, step);
    BufferedStep(s, answers, step);
  }

  // --------------------------------------------------------------- schedules

  ghost predicate Runs<V>(s: State<V>, answers: seq<Answer<V>>, steps: seq<Step>, t: State<V>)
    decreases |steps|
  {
    if steps == [] then s == t
    else
      && Enabled(s, |answers|, steps[0])
      && Runs(Apply(s, answers, steps[0]), answers, steps[1..], t)
  }

  lemma {:induction false} BeginInv<V>(answers: seq<Answer<V>>)
    ensures Inv(Begin(), answers)
  {
  }

  lemma {:induction false} InvRuns<V>(s: State<V>, answers: seq<Answer<V>>, steps: seq<Step>, t: State<V>)
    requires Inv(s, answers) && Runs(s, answers, steps, t)
    ensures Inv(t, answers)
    decreases |steps|
  {
    if steps != [] {
      InvStep(s, answers, steps[0]);
      InvRuns(Apply(s, answers, steps[0]), answers, steps[1..], t);
    }
  }

  // Steps still to come: every schedule takes exactly this many.
  function Weight(w: Worker): nat {
    match w
    case Translating => 4
    case Answered => 2
    case Freed => 1
    case Done => 0
  }

  function Weights(workers: seq<Worker>): nat {
    if workers == [] then 0 else Weights(workers[..|workers| - 1]) + Weight(workers[|workers| - 1])
  }

  function Remaining<V>(s: State<V>, n: nat): int {
    (n - |s.workers|) * 5 + Weights(s.workers) + |s.channel| +
    match s.phase
    case Launching => 3
    case Waiting => 2
    case Draining => 1
    case Finished => 0
  }

  lemma {:induction false} WeightsUpdate(workers: seq<Worker>, i: nat, w: Worker)
    requires i < |workers|
    ensures Weights(workers[i := w]) == Weights(workers) - Weight(workers[i]) + Weight(w)
    decreases |workers|
  {
    var n := |workers| - 1;
    if i == n {
      assert workers[i := w][..n] == workers[..n];
    } else {
      assert workers[i := w][..n] == workers[..n][i := w];
      WeightsUpdate(workers[..n], i, w);
    }
  }

  lemma {:induction false} StepsCountDown<V>(s: State<V>, answers: seq<Answer<V>>, step: Step)
    requires Enabled(s, |answers|, step)
    ensures Remaining(Apply(s, answers, step), |answers|) == Remaining(s, |answers|) - 1
  {
    match step {
      case Launch => assert (s.workers + [Translating])[..|s.workers|] == s.workers;
      case Answer(i) => WeightsUpdate(s.workers, i, Answered);
      case Free(i) => WeightsUpdate(s.workers, i, Freed);
      case Leave(i) => WeightsUpdate(s.workers, i, Done);
      case _ =>
    }
  }

  lemma {:induction false} ScheduleLength<V>(s: State<V>, answers: seq<Answer<V>>, steps: seq<Step>, t: State<V>)
    requires Runs(s, answers, steps, t)
    ensures Remaining(t, |answers|) == Remaining(s, |answers|) - |steps|
    decreases |steps|
  {
    if steps != [] {
      StepsCountDown(s, answers, steps[0]);
      ScheduleLength(Apply(s, answers, steps[0]), answers, steps[1..], t);
    }
  }

  lemma {:induction false} Reachable<V>(answers: seq<Answer<V>>, steps: seq<Step>, t: State<V>)
    requires Runs(Begin(), answers, steps, t)
    ensures Inv(t, answers)
  {
    BeginInv(answers);
    InvRuns(Begin(), answers, steps, t);
  }

  /** Nobody waits for ever: before the end of any schedule some step can be taken. */
  lemma {:induction false} NoDeadlock<V>(answers: seq<Answer<V>>, steps: seq<Step>, t: State<V>) returns (step: Step)
    requires Runs(Begin(), answers, steps, t) && t.phase != Finished
    ensures Enabled(t, |answers|, step)
  {
    Reachable(answers, steps, t);
    step := SomeStep(t, answers);
  }

  lemma {:induction false} SomeStep<V>(s: State<V>, answers: seq<Answer<V>>) returns (step: Step)
    requires Inv(s, answers) && s.phase != Finished
    ensures Enabled(s, |answers|, step)
  {
    CountZero(s.workers, HOLDING);
    CountZero(s.workers, PRESENT);
    if i: nat :| i < |s.workers| && s.workers[i] == Translating {
      ChannelHasRoom(s, answers, i);
      step := Answer(i);
    } else if i: nat :| i < |s.workers| && s.workers[i] == Answered {
      step := Free(i);
    } else if i: nat :| i < |s.workers| && s.workers[i] == Freed {
      step := Leave(i);
    } else {
      match s.phase {
        case Launching => step := if |s.workers| < |answers| then Launch else StopLaunching;
        case Waiting => step := Close;
        case Draining => step := if s.channel != [] then Drain else Finish;
      }
    }
  }

  // Distinct numbers below n, none of them i, are fewer than n.
  lemma {:induction false} FewerThan(channel: seq<nat>, n: nat, i: nat)
    requires forall j, k :: 0 <= j < k < |channel| ==> channel[j] != channel[k]
    requires forall k :: 0 <= k < |channel| ==> channel[k] < n && channel[k] != i
    requires i < n
    ensures |channel| < n
    decreases n
  {
    var top := n - 1;
    if top == i {
      if channel != [] {
        FewerOrEqual(channel, top);
      }
    } else if k :| 0 <= k < |channel| && channel[k] == top {
      var rest := channel[..k] + channel[k + 1..];
      FewerThan(rest, top, i);
    } else {
      FewerThan(channel, top, i);
    }
  }

  lemma {:induction false} FewerOrEqual(channel: seq<nat>, n: nat)
    requires forall j, k :: 0 <= j < k < |channel| ==> channel[j] != channel[k]
    requires forall k :: 0 <= k < |channel| ==> channel[k] < n
    ensures |channel| <= n
    decreases n
  {
    if channel != [] {
      assert channel[0] < n;
      if k :| 0 <= k < |channel| && channel[k] == n - 1 {
        FewerOrEqual(channel[..k] + channel[k + 1..], n - 1);
      } else {
        FewerOrEqual(channel, n - 1);
      }
    }
  }

  lemma {:induction false} ChannelHasRoom<V>(s: State<V>, answers: seq<Answer<V>>, i: nat)
    requires Inv(s, answers) && i < |s.workers| && s.workers[i] == Translating
    ensures |s.channel| < |answers|
  {
    FewerThan(s.channel, |answers|, i);
  }

  /** In every schedule a worker that still has something to send finds the channel open, with room. */
  lemma {:induction false} SendsFindTheChannelOpen<V>(answers: seq<Answer<V>>, steps: seq<Step>, t: State<V>, i: nat)
    requires Runs(Begin(), answers, steps, t) && i < |t.workers| && t.workers[i] == Translating
    ensures !t.closed && Enabled(t, |answers|, Answer(i))
  {
    Reachable(answers, steps, t);
    ChannelHasRoom(t, answers, i);
    CountZero(t.workers, PRESENT);
  }

  lemma {:induction false} AllDrainedAtTheEnd<V>(s: State<V>, answers: seq<Answer<V>>)
    requires Inv(s, answers) && s.phase == Finished
    ensures Drained(s) == Indices(|answers|)
  {
    CountZero(s.workers, PRESENT);
  }

  /** Whatever the answers, every schedule has the same length, never holds more
      than four slots, and ends with a union of the successful answers. */
  lemma {:induction false} EveryScheduleMergesTheUnion<V>(answers: seq<Answer<V>>, steps: seq<Step>, t: State<V>)
    requires Runs(Begin(), answers, steps, t)
    ensures t.slots <= MAX_WORKERS && |steps| <= 5 * |answers| + 3
    ensures t.phase == Finished ==>
      |steps| == 5 * |answers| + 3 && IsUnion(t.merged, answers, Indices(|answers|))
  {
    Reachable(answers, steps, t);
    ScheduleLength(Begin(), answers, steps, t);
    if t.phase == Finished {
      AllDrainedAtTheEnd(t, answers);
      CountZero(t.workers, PRESENT);
      WeightsOfDone(t.workers);
    }
  }

  lemma {:induction false} WeightsOfDone(workers: seq<Worker>)
    requires forall i :: 0 <= i < |workers| ==> workers[i] == Done
    ensures Weights(workers) == 0
    decreases |workers|
  {
    if workers != [] {
      WeightsOfDone(workers[..|workers| - 1]);
    }
  }

  lemma {:induction false} SchedulesAgree<V>(
    answers: seq<Answer<V>>, a: seq<Step>, s: State<V>, b: seq<Step>, t: State<V>)
    requires Compatible(answers)
    requires Runs(Begin(), answers, a, s) && s.phase == Finished
    requires Runs(Begin(), answers, b, t) && t.phase == Finished
    ensures s.merged == t.merged
  {
    EveryScheduleMergesTheUnion(answers, a, s);
    EveryScheduleMergesTheUnion(answers, b, t);
    UnionIsUnique(s.merged, t.merged, answers, Indices(|answers|));
  }

  // ------------------------------------------------------------- the merge

  function MergeAll<V>(answers: seq<Answer<V>>): map<string, V> {
    if answers == [] then map[]
    else Merge(MergeAll(answers[..|answers| - 1]), answers[|answers| - 1])
  }

  /** The merging loop over the closed channel. */
  method MergeResults<V>(results: seq<Answer<V>>) returns (merged: map<string, V>)
    ensures merged == MergeAll(results)
  {
    merged := map[];
    var i := 0;
    while i < |results|
      invariant 0 <= i <= |results|
      invariant merged == MergeAll(results[..i])
    {
      assert results[..i + 1][..i] == results[..i];
      if results[i].Some? {
        merged := merged + results[i].value;
      }
      i := i + 1;
    }
    assert results[..i] == results;
  }

  lemma {:induction false} MergeAllIsUnion<V>(answers: seq<Answer<V>>, n: nat)
    requires Compatible(answers) && n <= |answers|
    ensures IsUnion(MergeAll(answers[..n]), answers, Indices(n))
    decreases n
  {
    if n > 0 {
      MergeAllIsUnion(answers, n - 1);
      assert answers[..n][..n - 1] == answers[..n - 1];
      MergeIsUnion(MergeAll(answers[..n - 1]), answers, Indices(n - 1), n - 1);
    }
  }

  /** Every schedule ends with what a plain loop over the batches would build. */
  lemma {:induction false} ConcurrentIsSequential<V>(answers: seq<Answer<V>>, steps: seq<Step>, t: State<V>)
    requires Compatible(answers) && Runs(Begin(), answers, steps, t) && t.phase == Finished
    ensures t.merged == MergeAll(answers)
  {
    EveryScheduleMergesTheUnion(answers, steps, t);
    MergeAllIsUnion(answers, |answers|);
    assert answers[..|answers|] == answers;
    UnionIsUnique(t.merged, MergeAll(answers), answers, Indices(|answers|));
  }

  // ------------------------------------------ when schedules do not agree

  lemma {:induction false} Then<V>(
    s: State<V>, answers: seq<Answer<V>>, steps: seq<Step>, t: State<V>, more: seq<Step>, u: State<V>)
    requires Runs(s, answers, steps, t) && Runs(t, answers, more, u)
    ensures Runs(s, answers, steps + more, u)
    decreases |steps|
  {
    if steps == [] {
      assert steps + more == more;
    } else {
      Then(Apply(s, answers, steps[0]), answers, steps[1..], t, more, u);
      assert (steps + more)[1..] == steps[1..] + more;
    }
  }

  lemma {:induction false} Extend<V>(s: State<V>, answers: seq<Answer<V>>, steps: seq<Step>, t: State<V>, step: Step)
    returns (longer: seq<Step>, u: State<V>)
    requires Runs(s, answers, steps, t) && Enabled(t, |answers|, step)
    ensures u == Apply(t, answers, step) && Runs(s, answers, longer, u)
  {
    longer, u := steps + [step], Apply(t, answers, step);
    assert Runs(u, answers, [step][1..], u);
    Then(s, answers, steps, t, [step], u);
  }

  // All batches below i but b.
  function Others(i: nat, b: nat): (r: seq<nat>)
    ensures |r| <= i && forall k :: 0 <= k < |r| ==> r[k] < i
  {
    if i == 0 then [] else Others(i - 1, b) + if i - 1 == b then [] else [i - 1]
  }

  // b is still translating, everybody else launched so far is done.
  function SlowBatch<V>(i: nat, b: nat): State<V> {
    var busy := if b < i then 1 else 0;
    State(Launching, seq(i, x => if x == b then Translating else Done), busy, busy, Others(i, b), false, map[])
  }

  // One more batch is launched, answered and done, all but b.
  lemma {:induction false} LaunchOther<V>(answers: seq<Answer<V>>, b: nat, i: nat, before: seq<Step>)
    returns (steps: seq<Step>)
    requires i < |answers| && i != b && Runs(Begin(), answers, before, SlowBatch(i, b))
    ensures Runs(Begin(), answers, steps, SlowBatch(i + 1, b))
  {
    var t: State<V> := SlowBatch(i, b);
    steps, t := Extend(Begin(), answers, before, t, Launch);
    steps, t := Extend(Begin(), answers, steps, t, Answer(i));
    steps, t := Extend(Begin(), answers, steps, t, Free(i));
    steps, t := Extend(Begin(), answers, steps, t, Leave(i));
    assert t == SlowBatch(i + 1, b);
  }

  lemma {:induction false} LaunchSlow<V>(answers: seq<Answer<V>>, b: nat, before: seq<Step>) returns (steps: seq<Step>)
    requires b < |answers| && Runs(Begin(), answers, before, SlowBatch(b, b))
    ensures Runs(Begin(), answers, steps, SlowBatch(b + 1, b))
  {
    var t: State<V> := SlowBatch(b, b);
    steps, t := Extend(Begin(), answers, before, t, Launch);
    assert t == SlowBatch(b + 1, b);
  }

  lemma {:induction false} LaunchAll<V>(answers: seq<Answer<V>>, b: nat, i: nat) returns (steps: seq<Step>)
    requires i <= |answers| && b < |answers|
    ensures Runs(Begin(), answers, steps, SlowBatch(i, b))
    decreases i
  {
    if i == 0 {
      steps := [];
      assert SlowBatch<V>(0, b) == Begin<V>();
    } else {
      steps := LaunchAll(answers, b, i - 1);
      if i - 1 == b {
        steps := LaunchSlow(answers, b, steps);
      } else {
        steps := LaunchOther(answers, b, i - 1, steps);
      }
    }
  }

  lemma {:induction false} DrainAll<V>(s: State<V>, answers: seq<Answer<V>>, steps: seq<Step>, t: State<V>)
    returns (longer: seq<Step>, u: State<V>)
    requires Runs(s, answers, steps, t) && t.phase == Draining && t.channel != []
    ensures Runs(s, answers, longer, u) && u == t.(channel := [], merged := u.merged)
    ensures var last := t.channel[|t.channel| - 1];
      forall k :: Gives(answers, last, k) ==> k in u.merged && u.merged[k] == answers[last].value[k]
    decreases |t.channel|
  {
    longer, u := Extend(s, answers, steps, t, Drain);
    if |t.channel| > 1 {
      longer, u := DrainAll(s, answers, longer, u);
    }
  }

  /** Any batch can be the one whose result is merged last. */
  lemma {:induction false} AnyBatchCanBeLast<V>(answers: seq<Answer<V>>, b: nat) returns (steps: seq<Step>, t: State<V>)
    requires b < |answers|
    ensures Runs(Begin(), answers, steps, t) && t.phase == Finished
    ensures forall k :: Gives(answers, b, k) ==> k in t.merged && t.merged[k] == answers[b].value[k]
  {
    var n := |answers|;
    steps := LaunchAll(answers, b, n);
    t := SlowBatch(n, b);
    steps, t := Extend(Begin(), answers, steps, t, StopLaunching);
    OthersLeaveRoom(n, b);
    steps, t := Extend(Begin(), answers, steps, t, Answer(b));
    steps, t := Extend(Begin(), answers, steps, t, Free(b));
    steps, t := Extend(Begin(), answers, steps, t, Leave(b));
    steps, t := Extend(Begin(), answers, steps, t, Close);
    steps, t := DrainAll(Begin(), answers, steps, t);
    steps, t := Extend(Begin(), answers, steps, t, Finish);
  }

  lemma {:induction false} OthersLeaveRoom(n: nat, b: nat)
    requires b < n
    ensures |Others(n, b)| < n
    decreases n
  {
    if n - 1 != b {
      OthersLeaveRoom(n - 1, b);
    }
  }

  ghost predicate Completes<V>(answers: seq<Answer<V>>, steps: seq<Step>, t: State<V>) {
    Runs(Begin(), answers, steps, t) && t.phase == Finished
  }

  /** The schedule cannot be seen in the result exactly when the successful
      batches agree on the keys they share. */
  lemma {:induction false} ScheduleIndependence<V>(answers: seq<Answer<V>>)
    ensures Compatible(answers) <==>
      forall a, s, b, t :: Completes(answers, a, s) && Completes(answers, b, t) ==> s.merged == t.merged
  {
    if Compatible(answers) {
      forall a, s, b, t | Completes(answers, a, s) && Completes(answers, b, t)
        ensures s.merged == t.merged
      {
        SchedulesAgree(answers, a, s, b, t);
      }
    } else {
      var i: nat, j: nat, k: string :|
        Gives(answers, i, k) && Gives(answers, j, k) && answers[i].value[k] != answers[j].value[k];
      var a, s := AnyBatchCanBeLast(answers, i);
      var b, t := AnyBatchCanBeLast(answers, j);
      assert Completes(answers, a, s) && Completes(answers, b, t);
      assert s.merged[k] != t.merged[k];
    }
  }
}
