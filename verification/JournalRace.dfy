/**
 Concurrent Record calls on one journal. Each call is two atomic steps: the
 section under the lock, which numbers the event and appends it, and the emission
 to the sink after the lock is released.
 */
module JournalRace {
  import opened Common
  import opened Events
  import opened Journal

  type Caller = nat

  datatype State = State(
    maxSeq: int,
    recorded: seq<Event>,         // every event in the order the lock was taken
    pending: map<Caller, Event>,  // numbered, not emitted yet
    emitted: seq<Event>)

  datatype Step = Lock(caller: Caller, event: Event, now: int) | Emit(caller: Caller)

  const INITIAL := State(0, [], map[], [])

  predicate Enabled(s: State, step: Step) {
    match step
    case Lock(c, _, _) => c !in s.pending
    case Emit(c) => c in s.pending
  }

  function Apply(s: State, runID: string, step: Step): State
    requires Enabled(s, step)
  {
    match step
    case Lock(c, event, now) =>
      var e := Normalize(event, s.maxSeq, runID, now);
      s.(maxSeq := e.seqNo, recorded := s.recorded + [e], pending := s.pending[c := e])
    case Emit(c) =>
      s.(pending := s.pending - {c}, emitted := s.emitted + [s.pending[c]])
  }

  ghost predicate Runs(s: State, runID: string, steps: seq<Step>, t: State)
    decreases |steps|
  {
    if steps == [] then s == t
    else Enabled(s, steps[0]) && Runs(Apply(s, runID, steps[0]), runID, steps[1..], t)
  }

  predicate DistinctSeqs(events: seq<Event>) {
    forall i, j :: 0 <= i < j < |events| ==> events[i].seqNo != events[j].seqNo
  }

  ghost predicate Inv(s: State) {
    && 0 <= s.maxSeq
    && SeqIncreasing(s.recorded)
    && (forall e :: e in s.recorded ==> 0 < e.seqNo <= s.maxSeq)
    && DistinctSeqs(s.emitted)
    && (forall e :: e in s.emitted ==> e in s.recorded)
    && (forall c :: c in s.pending ==> s.pending[c] in s.recorded)
    && (forall c, d :: c in s.pending && d in s.pending && c != d ==> s.pending[c].seqNo != s.pending[d].seqNo)
    && (forall c, e :: c in s.pending && e in s.emitted ==> s.pending[c].seqNo != e.seqNo)
    && (forall e :: e in s.recorded ==> e in s.emitted || e in s.pending.Values)
  }

  lemma {:induction false} LockStep(s: State, runID: string, step: Step)
    requires Inv(s) && step.Lock? && Enabled(s, step)
    ensures Inv(Apply(s, runID, step))
  {
    var t := Apply(s, runID, step);
    forall e | e in t.recorded ensures e in t.emitted || e in t.pending.Values {
      if e in s.recorded && e !in s.emitted {
        var c :| c in s.pending && s.pending[c] == e;
        assert c in t.pending && t.pending[c] == e;
      } else if e !in s.recorded {
        assert t.pending[step.caller] == e;
      }
    }
  }

  lemma {:induction false} EmitCovers(s: State, runID: string, step: Step, x: Event)
    requires Inv(s) && step.Emit? && Enabled(s, step) && x in s.recorded
    ensures x in Apply(s, runID, step).emitted || x in Apply(s, runID, step).pending.Values
  {
    var t, e := Apply(s, runID, step), s.pending[step.caller];
    if x == e {
      assert t.emitted[|s.emitted|] == e;
    } else if x in s.emitted {
      var k :| 0 <= k < |s.emitted| && s.emitted[k] == x;
      assert t.emitted[k] == x;
    } else {
      var c :| c in s.pending && s.pending[c] == x;
      assert c in t.pending && t.pending[c] == x;
    }
  }

  lemma {:induction false} EmitStep(s: State, runID: string, step: Step)
    requires Inv(s) && step.Emit? && Enabled(s, step)
    ensures Inv(Apply(s, runID, step))
  {
    var t := Apply(s, runID, step);
    forall x | x in t.recorded ensures x in t.emitted || x in t.pending.Values {
      EmitCovers(s, runID, step, x);
    }
  }

  lemma {:induction false} InvRuns(s: State, runID: string, steps: seq<Step>, t: State)
    requires Inv(s) && Runs(s, runID, steps, t)
    ensures Inv(t)
    decreases |steps|
  {
    if steps != [] {
      if steps[0].Lock? { LockStep(s, runID, steps[0]); } else { EmitStep(s, runID, steps[0]); }
      InvRuns(Apply(s, runID, steps[0]), runID, steps[1..], t);
    }
  }

  lemma {:induction false} NonTerminalWithin(recorded: seq<Event>)
    ensures forall e :: e in NonTerminal(recorded) <==> e in recorded && !IsTerminal(e.kind)
    ensures SeqIncreasing(recorded) ==> SeqIncreasing(NonTerminal(recorded))
    decreases |recorded|
  {
    if recorded != [] {
      NonTerminalWithin(recorded[..|recorded| - 1]);
    }
  }

  /** However the calls interleave and whatever numbers the events came with, the
      journal is in strict sequence order, so archiving it needs no sort, and no
      number is emitted twice. */
  lemma {:induction false} RecordsAreOrderedAndEmittedOnce(runID: string, steps: seq<Step>, t: State)
    requires Runs(INITIAL, runID, steps, t)
    ensures SeqIncreasing(t.recorded) && DistinctSeqs(t.emitted)
    ensures Archive(NonTerminal(t.recorded)) == GroupBy(NonTerminal(t.recorded))
    ensures t.pending == map[] ==> forall e :: e in t.recorded <==> e in t.emitted
  {
    InvRuns(INITIAL, runID, steps, t);
    NonTerminalWithin(t.recorded);
    ArchiveNeedsNoSort(NonTerminal(t.recorded));
  }

  /** Emission order is not the journal's order: the second caller may emit first. */
  lemma {:induction false} EmissionMayReorder(runID: string, first: Event, second: Event, now: int)
    returns (steps: seq<Step>, t: State)
    requires first.seqNo == 0 && second.seqNo == 0
    ensures Runs(INITIAL, runID, steps, t) && t.pending == map[]
    ensures |t.emitted| == |t.recorded| == 2 && t.emitted == [t.recorded[1], t.recorded[0]]
    ensures t.emitted[0].seqNo > t.emitted[1].seqNo
  {
    steps := [Lock(0, first, now), Lock(1, second, now), Emit(1), Emit(0)];
    var s1 := Apply(INITIAL, runID, steps[0]);
    var s2 := Apply(s1, runID, steps[1]);
    var s3 := Apply(s2, runID, steps[2]);
    t := Apply(s3, runID, steps[3]);
    assert Runs(t, runID, steps[4..], t);
    assert Runs(s3, runID, steps[3..], t);
    assert steps[2..][1..] == steps[3..];
    assert Runs(s2, runID, steps[2..], t);
    assert steps[1..][1..] == steps[2..];
    assert Runs(s1, runID, steps[1..], t);
  }
}
