/**
 The run journal: sequence numbers given under a lock, and the archive that folds
 the deltas of one message into a single record.

 `Archive` is the meaning of the archive, a group-by over the whole journal; the
 one-pass index-map loop of the service is proved to compute it.
 */
module Journal {
  import opened Common
  import opened Errors
  import opened Events

  // ------------------------------------------------------------- group-by

  datatype Key = Key(kind: EventType, messageID: string)

  predicate Kept(e: Event) {
    !IsTerminal(e.kind) && !e.kind.MessageResult?
  }

  // The merge key of an event, if its deltas are to be merged at all.
  function KeyOf(e: Event): Option<Key> {
    if !IsDelta(e.kind) then None
    else match DecodeDelta(e.payload)
      case Some(d) => if d.messageID != "" then Some(Key(e.kind, d.messageID)) else None
      case None => None
  }

  function DeltaOf(e: Event): DeltaPayload
    requires KeyOf(e).Some?
  {
    DecodeDelta(e.payload).value
  }

  // All events of one key, in journal order.
  function Group(events: seq<Event>, key: Key): (g: seq<Event>)
    ensures forall e :: e in g ==> KeyOf(e) == Some(key)
  {
    if events == [] then []
    else
      var last := events[|events| - 1];
      Group(events[..|events| - 1], key) + if KeyOf(last) == Some(key) then [last] else []
  }

  function Contents(group: seq<Event>): string
    requires forall e :: e in group ==> KeyOf(e).Some?
  {
    if group == [] then "" else Contents(group[..|group| - 1]) + DeltaOf(group[|group| - 1]).content
  }

  function Plain(e: Event): Record {
    Record(e.seqNo, e.seqNo, e.kind, e.createdAt, e.payload)
  }

  // The record of a group: its first event, holding everything the group said.
  function Merged(group: seq<Event>): Record
    requires group != [] && forall e :: e in group ==> KeyOf(e).Some?
  {
    if |group| == 1 then Plain(group[0])
    else Plain(group[0]).(
      lastSeq := group[|group| - 1].seqNo,
      payload := DeltaJson(DeltaOf(group[0]).(content := Contents(group))))
  }

  // Event i opens a record: it is kept and no earlier event has its key.
  predicate Opens(events: seq<Event>, i: nat)
    requires i < |events|
  {
    && Kept(events[i])
    && (KeyOf(events[i]).Some? ==> forall j :: 0 <= j < i ==> KeyOf(events[j]) != KeyOf(events[i]))
  }

  // The positions that open a record, in order.
  function Openers(events: seq<Event>): (r: seq<nat>)
    ensures forall k :: 0 <= k < |r| ==> r[k] < |events| && Opens(events, r[k])
    ensures forall i :: 0 <= i < |events| && Opens(events, i) ==> i in r
    ensures forall j, k :: 0 <= j < k < |r| ==> r[j] < r[k]
  {
    if events == [] then []
    else
      var n := |events| - 1;
      var before := Openers(events[..n]);
      assert forall i :: 0 <= i < n ==> Opens(events, i) == Opens(events[..n], i);
      before + if Opens(events, n) then [n] else []
  }

  lemma {:induction false} OpenerInGroup(events: seq<Event>, i: nat, key: Key)
    requires i < |events| && KeyOf(events[i]) == Some(key)
    ensures events[i] in Group(events, key)
    decreases |events|
  {
    if i < |events| - 1 {
      OpenerInGroup(events[..|events| - 1], i, key);
    }
  }

  function RecordAt(events: seq<Event>, i: nat): Record
    requires i < |events|
  {
    match KeyOf(events[i])
    case Some(key) => OpenerInGroup(events, i, key); Merged(Group(events, key))
    case None => Plain(events[i])
  }

  /** One record per key and per unmergeable kept event, in order of first appearance. */
  function GroupBy(events: seq<Event>): (records: seq<Record>)
    ensures |records| == |Openers(events)|
    ensures forall k :: 0 <= k < |records| ==> records[k] == RecordAt(events, Openers(events)[k])
  {
    seq(|Openers(events)|, k requires 0 <= k < |Openers(events)| => RecordAt(events, Openers(events)[k]))
  }

  // ---------------------------------------------------------- stable sort

  // Puts r behind everything that is not greater.
  function Insert(sorted: seq<Record>, r: Record): (s: seq<Record>)
    ensures multiset(s) == multiset(sorted) + multiset{r}
  {
    if sorted == [] || sorted[|sorted| - 1].seqNo <= r.seqNo then sorted + [r]
    else
      var n := |sorted| - 1;
      assert sorted == sorted[..n] + [sorted[n]];
      Insert(sorted[..n], r) + [sorted[n]]
  }

  function StableSort(records: seq<Record>): (s: seq<Record>)
    ensures multiset(s) == multiset(records)
  {
    if records == [] then []
    else
      var n := |records| - 1;
      assert records == records[..n] + [records[n]];
      Insert(StableSort(records[..n]), records[n])
  }

  predicate SeqSorted(records: seq<Record>) {
    forall i, j :: 0 <= i < j < |records| ==> records[i].seqNo <= records[j].seqNo
  }

  lemma {:induction false} InsertSorts(sorted: seq<Record>, r: Record)
    requires SeqSorted(sorted)
    ensures SeqSorted(Insert(sorted, r))
    decreases |sorted|
  {
    var n := |sorted| - 1;
    if sorted != [] && sorted[n].seqNo > r.seqNo {
      InsertSorts(sorted[..n], r);
      var front := Insert(sorted[..n], r);
      forall x | x in front ensures x.seqNo <= sorted[n].seqNo {
        assert x in multiset(front);
        assert x == r || x in sorted[..n];
      }
      assert forall i :: 0 <= i < |front| ==> front[i] in front;
    }
  }

  lemma {:induction false} StableSortSorts(records: seq<Record>)
    ensures SeqSorted(StableSort(records))
    decreases |records|
  {
    if records != [] {
      StableSortSorts(records[..|records| - 1]);
      InsertSorts(StableSort(records[..|records| - 1]), records[|records| - 1]);
    }
  }

  lemma {:induction false} StableSortIsNoOp(records: seq<Record>)
    requires SeqSorted(records)
    ensures StableSort(records) == records
    decreases |records|
  {
    if records != [] {
      var n := |records| - 1;
      StableSortIsNoOp(records[..n]);
      InsertAtEnd(records[..n], records[n]);
      assert records == records[..n] + [records[n]];
    }
  }

  lemma {:induction false} InsertAtEnd(sorted: seq<Record>, r: Record)
    requires sorted != [] ==> sorted[|sorted| - 1].seqNo <= r.seqNo
    ensures Insert(sorted, r) == sorted + [r]
  {
  }

  /** What the archive of a journal is. */
  function Archive(events: seq<Event>): seq<Record> {
    StableSort(GroupBy(events))
  }

  // ------------------------------------------------- the one-pass archive

  lemma {:induction false} GroupGrows(events: seq<Event>, e: Event, key: Key)
    ensures KeyOf(e) == Some(key) ==> Group(events + [e], key) == Group(events, key) + [e]
    ensures KeyOf(e) != Some(key) ==> Group(events + [e], key) == Group(events, key)
  {
    assert (events + [e])[..|events|] == events;
  }

  lemma {:induction false} NoOpenerNoGroup(events: seq<Event>, key: Key)
    requires forall j :: 0 <= j < |events| ==> KeyOf(events[j]) != Some(key)
    ensures Group(events, key) == []
    decreases |events|
  {
    if events != [] {
      NoOpenerNoGroup(events[..|events| - 1], key);
    }
  }

  lemma {:induction false} OpenersGrow(events: seq<Event>, e: Event)
    ensures Openers(events + [e]) == Openers(events) + if Opens(events + [e], |events|) then [|events|] else []
  {
    assert (events + [e])[..|events|] == events;
  }

  lemma {:induction false} ContentsGrow(group: seq<Event>, e: Event)
    requires KeyOf(e).Some? && forall x :: x in group ==> KeyOf(x).Some?
    ensures Contents(group + [e]) == Contents(group) + DeltaOf(e).content
  {
    assert (group + [e])[..|group|] == group;
  }

  // Every key is opened by the first event that has it.
  lemma {:induction false} KeyHasOpener(events: seq<Event>, i: nat) returns (o: nat)
    requires i < |events| && KeyOf(events[i]).Some?
    ensures o <= i && KeyOf(events[o]) == KeyOf(events[i]) && Opens(events, o)
  {
    if j :| 0 <= j < i && KeyOf(events[j]) == KeyOf(events[i]) {
      o := KeyHasOpener(events, j);
    } else {
      o := i;
    }
  }

  // Every key of the map points at the opener it has.
  ghost predicate Points(merged: map<Key, nat>, events: seq<Event>, openers: seq<nat>) {
    forall key :: key in merged ==>
      && merged[key] < |openers| && openers[merged[key]] < |events|
      && KeyOf(events[openers[merged[key]]]) == Some(key)
  }

  // The index map: each key of the prefix points at the record it opened.
  ghost predicate Indexes(merged: map<Key, nat>, events: seq<Event>) {
    && (forall key :: key in merged ==>
          && merged[key] < |Openers(events)|
          && KeyOf(events[Openers(events)[merged[key]]]) == Some(key))
    && (forall i :: 0 <= i < |events| && KeyOf(events[i]).Some? ==> KeyOf(events[i]).value in merged)
  }

  lemma {:induction false} PointsStill(
    merged: map<Key, nat>, events: seq<Event>, openers: seq<nat>, e: Event, more: seq<nat>)
    requires Points(merged, events, openers)
    ensures Points(merged, events + [e], openers + more)
  {
  }

  lemma {:induction false} RecordUntouched(events: seq<Event>, e: Event, i: nat)
    requires i < |events| && (KeyOf(events[i]).Some? ==> KeyOf(events[i]) != KeyOf(e))
    ensures RecordAt(events + [e], i) == RecordAt(events, i)
  {
    assert (events + [e])[i] == events[i];
    if KeyOf(events[i]).Some? {
      GroupGrows(events, e, KeyOf(events[i]).value);
    }
  }

  // A record after one more delta of its key.
  function Extended(r: Record, e: Event): Record
    requires DecodeDelta(r.payload).Some? && KeyOf(e).Some?
  {
    var d := DecodeDelta(r.payload).value;
    r.(payload := DeltaJson(d.(content := d.content + DeltaOf(e).content)), lastSeq := e.seqNo)
  }

  lemma {:induction false} MergedGrows(g: seq<Event>, e: Event)
    requires g != [] && KeyOf(e).Some? && forall x :: x in g ==> KeyOf(x).Some?
    ensures DecodeDelta(Merged(g).payload).Some?
    ensures Merged(g + [e]) == Extended(Merged(g), e)
  {
    assert g[0] in g;
    ContentsGrow(g, e);
    if |g| == 1 {
      assert g[..0] == [] && Contents(g) == Contents(g[..0]) + DeltaOf(g[0]).content;
      assert Contents(g) == DeltaOf(g[0]).content;
    }
    assert (g + [e])[0] == g[0] && (g + [e])[|g|] == e;
  }

  lemma {:induction false} RecordExtended(events: seq<Event>, e: Event, i: nat)
    requires i < |events| && KeyOf(events[i]).Some? && KeyOf(events[i]) == KeyOf(e)
    ensures DecodeDelta(RecordAt(events, i).payload).Some?
    ensures RecordAt(events + [e], i) == Extended(RecordAt(events, i), e)
  {
    assert (events + [e])[i] == events[i];
    var key := KeyOf(e).value;
    OpenerInGroup(events, i, key);
    GroupGrows(events, e, key);
    MergedGrows(Group(events, key), e);
  }

  lemma {:induction false} IndexesGrow(events: seq<Event>, e: Event, merged: map<Key, nat>)
    requires Indexes(merged, events)
    requires KeyOf(e).Some? ==> KeyOf(e).value in merged
    ensures Indexes(merged, events + [e])
  {
    OpenersGrow(events, e);
    PointsStill(merged, events, Openers(events), e, if Opens(events + [e], |events|) then [|events|] else []);
    KeysStill(merged, merged, events, e);
  }

  lemma {:induction false} KeysStill(merged: map<Key, nat>, grown: map<Key, nat>, events: seq<Event>, e: Event)
    requires forall i :: 0 <= i < |events| && KeyOf(events[i]).Some? ==> KeyOf(events[i]).value in merged
    requires merged.Keys <= grown.Keys && (KeyOf(e).Some? ==> KeyOf(e).value in grown)
    ensures
      var all := events + [e];
      forall i :: 0 <= i < |all| && KeyOf(all[i]).Some? ==> KeyOf(all[i]).value in grown
  {
  }

  // An event that merges touches one record only.
  lemma {:induction false} OtherOpener(events: seq<Event>, j: nat, k: nat)
    requires j < |Openers(events)| && k < |Openers(events)| && j != k
    requires KeyOf(events[Openers(events)[k]]).Some?
    ensures KeyOf(events[Openers(events)[j]]) != KeyOf(events[Openers(events)[k]])
  {
    var (a, b) := (Openers(events)[j], Openers(events)[k]);
    assert Opens(events, a) && Opens(events, b);
  }

  // Merging into one record leaves the others.
  lemma {:induction false} OtherRecordsStay(events: seq<Event>, e: Event, key: Key, k: nat)
    requires KeyOf(e) == Some(key) && k < |Openers(events)| && KeyOf(events[Openers(events)[k]]) == Some(key)
    ensures forall j :: 0 <= j < |Openers(events)| && j != k ==>
      RecordAt(events + [e], Openers(events)[j]) == RecordAt(events, Openers(events)[j])
  {
    forall j | 0 <= j < |Openers(events)| && j != k
      ensures RecordAt(events + [e], Openers(events)[j]) == RecordAt(events, Openers(events)[j])
    {
      OtherOpener(events, j, k);
      RecordUntouched(events, e, Openers(events)[j]);
    }
  }

  lemma {:induction false} OpenersStay(events: seq<Event>, e: Event, key: Key, k: nat)
    requires KeyOf(e) == Some(key) && k < |Openers(events)| && KeyOf(events[Openers(events)[k]]) == Some(key)
    ensures Openers(events + [e]) == Openers(events)
  {
    OpenersGrow(events, e);
    assert (events + [e])[Openers(events)[k]] == events[Openers(events)[k]];
  }

  lemma {:induction false} RecordMerged(events: seq<Event>, e: Event, key: Key, k: nat)
    requires KeyOf(e) == Some(key) && k < |Openers(events)| && KeyOf(events[Openers(events)[k]]) == Some(key)
    ensures DecodeDelta(GroupBy(events)[k].payload).Some?
    ensures GroupBy(events + [e]) == GroupBy(events)[k := Extended(GroupBy(events)[k], e)]
  {
    OpenersStay(events, e, key, k);
    RecordExtended(events, e, Openers(events)[k]);
    OtherRecordsStay(events, e, key, k);
  }

  lemma {:induction false} MergeStep(events: seq<Event>, e: Event, merged: map<Key, nat>, key: Key)
    requires Indexes(merged, events) && KeyOf(e) == Some(key) && key in merged
    ensures Indexes(merged, events + [e])
    ensures DecodeDelta(GroupBy(events)[merged[key]].payload).Some?
    ensures GroupBy(events + [e]) == GroupBy(events)[merged[key] := Extended(GroupBy(events)[merged[key]], e)]
  {
    IndexesGrow(events, e, merged);
    RecordMerged(events, e, key, merged[key]);
  }

  lemma {:induction false} FreshRecord(events: seq<Event>, e: Event)
    requires forall i :: 0 <= i < |events| && KeyOf(events[i]).Some? ==> KeyOf(events[i]) != KeyOf(e)
    ensures RecordAt(events + [e], |events|) == Plain(e)
  {
    if KeyOf(e).Some? {
      NoOpenerNoGroup(events, KeyOf(e).value);
      GroupGrows(events, e, KeyOf(e).value);
    }
  }

  lemma {:induction false} RecordsUntouched(events: seq<Event>, e: Event)
    requires forall i :: 0 <= i < |events| && KeyOf(events[i]).Some? ==> KeyOf(events[i]) != KeyOf(e)
    ensures GroupBy(events) == seq(|Openers(events)|, j requires 0 <= j < |Openers(events)| =>
              RecordAt(events + [e], Openers(events)[j]))
  {
    forall j | 0 <= j < |Openers(events)|
      ensures RecordAt(events + [e], Openers(events)[j]) == GroupBy(events)[j]
    {
      RecordUntouched(events, e, Openers(events)[j]);
    }
  }

  // An event that does not merge appends its own record, if it is kept.
  lemma {:induction false} AppendRecord(events: seq<Event>, e: Event)
    requires forall i :: 0 <= i < |events| && KeyOf(events[i]).Some? ==> KeyOf(events[i]) != KeyOf(e)
    ensures GroupBy(events + [e]) == GroupBy(events) + if Kept(e) then [Plain(e)] else []
    ensures |Openers(events + [e])| == |Openers(events)| + if Kept(e) then 1 else 0
    ensures Kept(e) ==> Openers(events + [e]) == Openers(events) + [|events|]
  {
    var all := events + [e];
    assert forall i :: 0 <= i < |events| ==> all[i] == events[i];
    OpenersGrow(events, e);
    assert Opens(all, |events|) == Kept(e);
    FreshRecord(events, e);
    RecordsUntouched(events, e);
  }

  // The new record is the one its key points at.
  lemma {:induction false} IndexNewKey(events: seq<Event>, e: Event, merged: map<Key, nat>, key: Key)
    requires Indexes(merged, events) && KeyOf(e) == Some(key) && key !in merged
    requires Openers(events + [e]) == Openers(events) + [|events|]
    ensures Indexes(merged[key := |Openers(events)|], events + [e])
  {
    PointsStill(merged, events, Openers(events), e, [|events|]);
    KeysStill(merged, merged[key := |Openers(events)|], events, e);
  }

  lemma {:induction false} AppendStep(events: seq<Event>, e: Event, merged: map<Key, nat>)
    requires Indexes(merged, events) && (KeyOf(e).Some? ==> KeyOf(e).value !in merged)
    ensures GroupBy(events + [e]) == GroupBy(events) + if Kept(e) then [Plain(e)] else []
    ensures KeyOf(e) == None ==> Indexes(merged, events + [e])
    ensures KeyOf(e).Some? ==> Indexes(merged[KeyOf(e).value := |GroupBy(events)|], events + [e])
  {
    AppendRecord(events, e);
    match KeyOf(e)
    case None => IndexesGrow(events, e, merged);
    case Some(key) => IndexNewKey(events, e, merged, key);
  }

  // The loop has folded the events seen so far.
  ghost predicate Folded(records: seq<Record>, merged: map<Key, nat>, seen: seq<Event>) {
    records == GroupBy(seen) && Indexes(merged, seen)
  }

  lemma {:induction false} FoldAppend(records: seq<Record>, merged: map<Key, nat>, seen: seq<Event>, e: Event)
    requires Folded(records, merged, seen) && (KeyOf(e).Some? ==> KeyOf(e).value !in merged)
    ensures Folded(records + if Kept(e) then [Plain(e)] else [],
                   if KeyOf(e).Some? then merged[KeyOf(e).value := |records|] else merged, seen + [e])
  {
    AppendStep(seen, e, merged);
  }

  lemma {:induction false} FoldMerge(records: seq<Record>, merged: map<Key, nat>, seen: seq<Event>, e: Event, key: Key)
    requires Folded(records, merged, seen) && KeyOf(e) == Some(key) && key in merged
    ensures merged[key] < |records| && DecodeDelta(records[merged[key]].payload).Some?
    ensures Folded(records[merged[key] := Extended(records[merged[key]], e)], merged, seen + [e])
  {
    MergeStep(seen, e, merged, key);
  }

  /** The service's single pass over the journal computes the group-by, whatever
      the sequence numbers are; the stable sort comes last. */
  method ArchiveEvents(events: seq<Event>) returns (records: seq<Record>)
    ensures records == Archive(events)
  {
    records := [];
    var merged: map<Key, nat> := map[];
    ghost var seen: seq<Event> := [];
    for i := 0 to |events|
      invariant seen == events[..i] && Folded(records, merged, seen)
    {
      var event := events[i];
      ghost var before := seen;
      seen := seen + [event];
      if event.kind.RunCompleted? || event.kind.RunFailed? || event.kind.RunCancelled? || event.kind.MessageResult? {
        FoldAppend(records, merged, before, event);
        continue;
      }
      var record := Record(event.seqNo, event.seqNo, event.kind, event.createdAt, event.payload);
      if event.kind.MessageDelta? || event.kind.ReasoningDelta? {
        var payload := DecodeDelta(event.payload);
        if payload.Some? && payload.value.messageID != "" {
          var key := Key(event.kind, payload.value.messageID);
          if key in merged {
            var index := merged[key];
            FoldMerge(records, merged, before, event, key);
            var target := DecodeDelta(records[index].payload);
            if target.Some? {
              var text := target.value.content + payload.value.content;
              records := records[index := records[index].(
                payload := DeltaJson(target.value.(content := text)), lastSeq := event.seqNo)];
              continue;
            }
          }
          FoldAppend(records, merged, before, event);
          merged := merged[key := |records|];
          records := records + [record];
          continue;
        }
      }
      FoldAppend(records, merged, before, event);
      records := records + [record];
    }
    assert events[..|events|] == events;
    records := StableSort(records);
  }

  // ------------------------------------------------------ ordered journals

  predicate SeqIncreasing(events: seq<Event>) {
    forall i, j :: 0 <= i < j < |events| ==> events[i].seqNo < events[j].seqNo
  }

  lemma {:induction false} OneMoreInOrder(events: seq<Event>, e: Event)
    requires SeqIncreasing(events) && forall x :: x in events ==> x.seqNo < e.seqNo
    ensures SeqIncreasing(events + [e])
    ensures forall x :: x in events + [e] ==> x == e || x in events
  {
    assert forall i :: 0 <= i < |events| ==> events[i] in events;
  }

  /** On a journal in sequence order the final sort changes nothing. */
  lemma {:induction false} ArchiveNeedsNoSort(events: seq<Event>)
    requires SeqIncreasing(events)
    ensures Archive(events) == GroupBy(events)
  {
    forall i, j | 0 <= i < j < |GroupBy(events)|
      ensures GroupBy(events)[i].seqNo <= GroupBy(events)[j].seqNo
    {
      RecordOpens(events, Openers(events)[i]);
      RecordOpens(events, Openers(events)[j]);
    }
    StableSortIsNoOp(GroupBy(events));
  }

  // An opener is the first of its group.
  lemma {:induction false} FirstOfGroup(events: seq<Event>, i: nat, key: Key)
    requires i < |events| && KeyOf(events[i]) == Some(key) && Opens(events, i)
    ensures Group(events, key) != [] && Group(events, key)[0] == events[i]
    decreases |events|
  {
    var n := |events| - 1;
    if i == n {
      NoOpenerNoGroup(events[..n], key);
    } else {
      FirstOfGroup(events[..n], i, key);
    }
  }

  // A record keeps the sequence number, type and time of the event that opened it.
  lemma {:induction false} RecordOpens(events: seq<Event>, i: nat)
    requires i < |events| && Opens(events, i)
    ensures var r := RecordAt(events, i);
      r.seqNo == events[i].seqNo && r.kind == events[i].kind && r.timestamp == events[i].createdAt
  {
    if KeyOf(events[i]).Some? {
      FirstOfGroup(events, i, KeyOf(events[i]).value);
    }
  }

  lemma {:induction false} GroupWithin(events: seq<Event>, key: Key)
    ensures forall e :: e in Group(events, key) ==> e in events
    decreases |events|
  {
    if events != [] {
      GroupWithin(events[..|events| - 1], key);
    }
  }

  // A record never reaches beyond the events it was made of.
  lemma {:induction false} RecordBelow(events: seq<Event>, i: nat, bound: int)
    requires i < |events| && Opens(events, i) && forall e :: e in events ==> e.seqNo <= bound
    ensures RecordAt(events, i).seqNo <= bound && RecordAt(events, i).lastSeq <= bound
  {
    RecordOpens(events, i);
    if KeyOf(events[i]).Some? {
      var key := KeyOf(events[i]).value;
      GroupWithin(events, key);
      OpenerInGroup(events, i, key);
      var g := Group(events, key);
      assert g[|g| - 1] in g;
    }
  }

  // ------------------------------------------------- what the archive holds

  // What the deltas of a message say, by their payloads.
  function Said(events: seq<Event>, key: Key): string {
    if events == [] then ""
    else
      var n := |events| - 1;
      var e := events[n];
      Said(events[..n], key) +
      if e.kind == key.kind && e.payload.DeltaJson? && e.payload.delta.messageID == key.messageID
      then e.payload.delta.content else ""
  }

  /** The contents of a message are what its deltas said. */
  lemma {:induction false} TextIsWhatWasSaid(events: seq<Event>, key: Key)
    requires IsDelta(key.kind) && key.messageID != ""
    ensures Contents(Group(events, key)) == Said(events, key)
    decreases |events|
  {
    if events != [] {
      var n := |events| - 1;
      var front, e := events[..n], events[n];
      assert events == front + [e];
      TextIsWhatWasSaid(front, key);
      GroupGrows(front, e, key);
      if KeyOf(e) == Some(key) {
        ContentsGrow(Group(front, key), e);
      }
    }
  }

  // A delta of a message that has an id.
  predicate Named(e: Event) {
    && (e.kind == MessageDelta || e.kind == ReasoningDelta)
    && e.payload.DeltaJson? && e.payload.delta.messageID != ""
  }

  // An event that is archived as it is.
  predicate Unnamed(e: Event) {
    !IsDelta(e.kind) || e.payload.Malformed? || e.payload.Absent? || (e.payload.DeltaJson? && !Named(e))
  }

  // The record of a named delta's message, with this text.
  predicate TellsMessage(r: Record, e: Event, text: string)
    requires Named(e)
  {
    && r.kind == e.kind
    && match DecodeDelta(r.payload)
       case Some(d) => d.messageID == e.payload.delta.messageID && d.content == text
       case None => false
  }

  /** Whatever is not a terminal, a result or a named delta is in the archive as it is. */
  lemma {:induction false} ArchiveHoldsPlain(events: seq<Event>, i: nat)
    requires SeqIncreasing(events) && i < |events| && Unnamed(events[i])
    requires events[i].kind !in {RunCompleted, RunFailed, RunCancelled, MessageResult}
    ensures
      var e := events[i];
      Record(e.seqNo, e.seqNo, e.kind, e.createdAt, e.payload) in Archive(events)
  {
    ArchiveNeedsNoSort(events);
    HoldsPlain(events, i);
  }

  /** And a named delta is in the record of its message, whose text is all that the
      message's deltas said. */
  lemma {:induction false} ArchiveHoldsMessage(events: seq<Event>, i: nat) returns (r: Record)
    requires SeqIncreasing(events) && i < |events| && Named(events[i])
    ensures r in Archive(events)
    ensures TellsMessage(r, events[i], Said(events, Key(events[i].kind, events[i].payload.delta.messageID)))
  {
    ArchiveNeedsNoSort(events);
    r := HoldsMessage(events, i);
  }

  lemma {:induction false} HoldsPlain(events: seq<Event>, i: nat)
    requires i < |events| && Unnamed(events[i])
    requires events[i].kind !in {RunCompleted, RunFailed, RunCancelled, MessageResult}
    ensures Plain(events[i]) in GroupBy(events)
  {
    assert KeyOf(events[i]) == None && Opens(events, i);
    var k :| 0 <= k < |Openers(events)| && Openers(events)[k] == i;
    assert GroupBy(events)[k] == RecordAt(events, i);
  }

  lemma {:induction false} HoldsMessage(events: seq<Event>, i: nat) returns (r: Record)
    requires i < |events| && Named(events[i])
    ensures r in GroupBy(events)
    ensures TellsMessage(r, events[i], Said(events, Key(events[i].kind, events[i].payload.delta.messageID)))
  {
    var key := KeyOf(events[i]).value;
    var o := KeyHasOpener(events, i);
    var k :| 0 <= k < |Openers(events)| && Openers(events)[k] == o;
    var g := Group(events, key);
    r := GroupBy(events)[k];
    assert r == RecordAt(events, o);
    OpenerInGroup(events, o, key);
    assert KeyOf(g[0]) == Some(key);
    TextIsWhatWasSaid(events, key);
    MergedTells(g, key);
  }

  lemma {:induction false} MergedTells(g: seq<Event>, key: Key)
    requires g != [] && forall e :: e in g ==> KeyOf(e) == Some(key)
    ensures
      var d := DecodeDelta(Merged(g).payload);
      Merged(g).kind == key.kind && d.Some? && d.value.messageID == key.messageID && d.value.content == Contents(g)
  {
    assert KeyOf(g[0]) == Some(key);
    if |g| == 1 {
      assert g[..0] == [] && Contents(g) == Contents(g[..0]) + DeltaOf(g[0]).content;
      assert Contents(g) == DeltaOf(g[0]).content;
    }
  }

  // -------------------------------------------------------- snapshots grow

  // A later view of a record: same place in the run, and nothing it said is lost.
  ghost predicate Grew(r: Record, later: Record) {
    && r.seqNo == later.seqNo && r.kind == later.kind && r.timestamp == later.timestamp
    && r.lastSeq <= later.lastSeq
    && (r.payload == later.payload ||
        match (DecodeDelta(r.payload), DecodeDelta(later.payload))
        case (Some(d), Some(d')) => d.messageID == d'.messageID && d.role == d'.role && d.content <= d'.content
        case _ => false)
  }

  lemma {:induction false} RecordGrows(events: seq<Event>, e: Event, i: nat)
    requires SeqIncreasing(events + [e]) && i < |events| && Opens(events, i)
    ensures Grew(RecordAt(events, i), RecordAt(events + [e], i))
  {
    if KeyOf(events[i]).Some? && KeyOf(events[i]) == KeyOf(e) {
      RecordExtended(events, e, i);
      forall x | x in events ensures x.seqNo <= e.seqNo {
        var k :| 0 <= k < |events| && events[k] == x;
        assert (events + [e])[k] == x && (events + [e])[|events|] == e;
      }
      RecordBelow(events, i, e.seqNo);
    } else {
      RecordUntouched(events, e, i);
    }
  }

  // Every earlier record sits, grown, at its own index.
  ghost predicate AllGrew(records: seq<Record>, later: seq<Record>) {
    && |records| <= |later|
    && forall k :: 0 <= k < |records| ==> Grew(records[k], later[k])
  }

  lemma {:induction false} GrewTwice(a: seq<Record>, b: seq<Record>, c: seq<Record>)
    requires AllGrew(a, b) && AllGrew(b, c)
    ensures AllGrew(a, c)
  {
    forall k | 0 <= k < |a| ensures Grew(a[k], c[k]) {
      assert Grew(a[k], b[k]) && Grew(b[k], c[k]);
    }
  }

  lemma {:induction false} OneMoreEvent(events: seq<Event>, e: Event)
    requires SeqIncreasing(events + [e])
    ensures AllGrew(GroupBy(events), GroupBy(events + [e]))
  {
    OpenersGrow(events, e);
    forall k | 0 <= k < |GroupBy(events)|
      ensures Grew(GroupBy(events)[k], GroupBy(events + [e])[k])
    {
      RecordGrows(events, e, Openers(events)[k]);
    }
  }

  lemma {:induction false} SeqIncreasingPrefix(xs: seq<Event>, ys: seq<Event>)
    requires SeqIncreasing(xs + ys)
    ensures SeqIncreasing(xs)
  {
    assert forall i :: 0 <= i < |xs| ==> (xs + ys)[i] == xs[i];
  }

  lemma {:induction false} GroupByGrows(xs: seq<Event>, ys: seq<Event>)
    requires SeqIncreasing(xs + ys)
    ensures AllGrew(GroupBy(xs), GroupBy(xs + ys))
    decreases |ys|
  {
    if ys == [] {
      assert xs + ys == xs;
    } else {
      var mid, e := xs + ys[..|ys| - 1], ys[|ys| - 1];
      assert mid + [e] == xs + ys;
      SeqIncreasingPrefix(mid, [e]);
      GroupByGrows(xs, ys[..|ys| - 1]);
      OneMoreEvent(mid, e);
      GrewTwice(GroupBy(xs), GroupBy(mid), GroupBy(xs + ys));
    }
  }

  /** Every record of an earlier snapshot sits at the same index of every later
      one, with the same place in the run and no word lost. */
  lemma {:induction false} SnapshotsOnlyGrow(xs: seq<Event>, ys: seq<Event>)
    requires SeqIncreasing(xs + ys)
    ensures AllGrew(Archive(xs), Archive(xs + ys))
  {
    SeqIncreasingPrefix(xs, ys);
    ArchiveNeedsNoSort(xs);
    ArchiveNeedsNoSort(xs + ys);
    GroupByGrows(xs, ys);
  }

  // --------------------------------------------------------- one journal

  // The sequence number an event leaves with.
  function NextSeq(seqNo: int, maxSeq: int): int {
    if seqNo <= maxSeq then maxSeq + 1 else seqNo
  }

  function Normalize(e: Event, maxSeq: int, runID: string, now: int): Event {
    e.(runID := if e.runID == "" then runID else e.runID,
       seqNo := NextSeq(e.seqNo, maxSeq),
       createdAt := if e.createdAt == 0 then now else e.createdAt)
  }

  /** What recording fills in: a missing run id and time, and the next number unless the
      event brings a higher one; what the event says stays. */
  lemma {:induction false} NormalizeExactly(event: Event, maxSeq: int, runID: string, now: int)
    ensures
      var e := Normalize(event, maxSeq, runID, now);
      && e.kind == event.kind && e.payload == event.payload && e.content == event.content
      && (event.seqNo > maxSeq ==> e.seqNo == event.seqNo) && (event.seqNo <= maxSeq ==> e.seqNo == maxSeq + 1)
      && (event.runID != "" ==> e.runID == event.runID) && (event.runID == "" ==> e.runID == runID)
      && (event.createdAt != 0 ==> e.createdAt == event.createdAt) && (event.createdAt == 0 ==> e.createdAt == now)
  {
  }

  // Numbers ascend from above zero to at most `bound`.
  predicate Numbered(events: seq<Event>, bound: int) {
    if events == [] then 0 <= bound
    else
      var n := |events| - 1;
      events[n].seqNo <= bound && Numbered(events[..n], events[n].seqNo - 1)
  }

  lemma {:induction false} NumberedUpTo(events: seq<Event>, bound: int, higher: int)
    requires Numbered(events, bound) && bound <= higher
    ensures Numbered(events, higher)
  {
  }

  lemma {:induction false} OneMoreNumbered(events: seq<Event>, bound: int, e: Event)
    requires Numbered(events, bound) && bound < e.seqNo
    ensures Numbered(events + [e], e.seqNo)
  {
    assert (events + [e])[..|events|] == events;
    NumberedUpTo(events, bound, e.seqNo - 1);
  }

  lemma {:induction false} NumberedAscends(events: seq<Event>, bound: int)
    requires Numbered(events, bound)
    ensures SeqIncreasing(events) && 0 <= bound && forall e :: e in events ==> 0 < e.seqNo <= bound
  {
    if events != [] {
      var n := |events| - 1;
      NumberedAscends(events[..n], events[n].seqNo - 1);
      assert events == events[..n] + [events[n]];
      OneMoreInOrder(events[..n], events[n]);
    }
  }

  // What a journal keeps of a trace.
  function NonTerminal(events: seq<Event>): seq<Event> {
    if events == [] then []
    else
      var n := |events| - 1;
      NonTerminal(events[..n]) + if IsTerminal(events[n].kind) then [] else [events[n]]
  }

  lemma {:induction false} OneMoreNonTerminal(events: seq<Event>, e: Event)
    ensures NonTerminal(events + [e]) == NonTerminal(events) + if IsTerminal(e.kind) then [] else [e]
  {
    assert (events + [e])[..|events|] == events;
  }

  lemma {:induction false} NonTerminalNumbered(events: seq<Event>, bound: int)
    requires Numbered(events, bound)
    ensures Numbered(NonTerminal(events), bound)
  {
    if events != [] {
      var n := |events| - 1;
      NonTerminalNumbered(events[..n], events[n].seqNo - 1);
      if IsTerminal(events[n].kind) {
        assert NonTerminal(events) == NonTerminal(events[..n]);
        NumberedUpTo(NonTerminal(events[..n]), events[n].seqNo - 1, bound);
      } else {
        OneMoreNumbered(NonTerminal(events[..n]), events[n].seqNo - 1, events[n]);
        NumberedUpTo(NonTerminal(events), events[n].seqNo, bound);
      }
    }
  }

  lemma {:induction false} NonTerminalIsAll(events: seq<Event>)
    requires forall k :: 0 <= k < |events| ==> !IsTerminal(events[k].kind)
    ensures NonTerminal(events) == events
  {
    if events != [] {
      NonTerminalIsAll(events[..|events| - 1]);
    }
  }

  /** The journal of one run, written by one goroutine at a time. The sink is an
      arbitrary answer to its n-th call. */
  class RunJournal {
    const runID: string
    const sink: nat -> Option<Error>
    var maxSeq: int
    var rawEvents: seq<Event>
    var emitted: seq<Event>

    ghost predicate Valid()
      reads this
    {
      Numbered(emitted, maxSeq) && rawEvents == NonTerminal(emitted)
    }

    constructor (runID: string, sink: nat -> Option<Error>)
      ensures Valid() && this.runID == runID && this.sink == sink
      ensures maxSeq == 0 && rawEvents == [] && emitted == []
    {
      this.runID, this.sink := runID, sink;
      maxSeq, rawEvents, emitted := 0, [], [];
    }

    // Fills in what the event leaves blank and numbers it above all earlier ones.
    method Number(event: Event, now: int) returns (e: Event)
      modifies this`maxSeq
      ensures e == Normalize(event, old(maxSeq), runID, now)
      ensures maxSeq == e.seqNo > old(maxSeq)
    {
      e := event;
      if e.runID == "" {
        e := e.(runID := runID);
      }
      if e.seqNo <= maxSeq {
        maxSeq := maxSeq + 1;
        e := e.(seqNo := maxSeq);
      } else {
        maxSeq := e.seqNo;
      }
      if e.createdAt == 0 {
        e := e.(createdAt := now);
      }
    }

    method Append(event: Event, now: int) returns (err: Option<Error>)
      requires Valid()
      modifies this
      ensures Valid()
      ensures emitted == old(emitted) + [Normalize(event, old(maxSeq), runID, now)]
      ensures maxSeq == Normalize(event, old(maxSeq), runID, now).seqNo > old(maxSeq)
      ensures rawEvents == old(rawEvents) +
        if IsTerminal(event.kind) then [] else [Normalize(event, old(maxSeq), runID, now)]
      ensures err == sink(|old(emitted)|)
    {
      ghost var bound := maxSeq;
      var e := Number(event, now);
      OneMoreNumbered(emitted, bound, e);
      OneMoreNonTerminal(emitted, e);
      if !IsTerminal(e.kind) {
        rawEvents := rawEvents + [e];
      }
      err := sink(|emitted|);
      emitted := emitted + [e];
    }

    method Snapshot() returns (records: seq<Record>)
      requires Valid()
      ensures records == Archive(rawEvents) == GroupBy(rawEvents)
      ensures forall r :: r in records ==> r.seqNo <= maxSeq && r.lastSeq <= maxSeq
    {
      records := ArchiveEvents(rawEvents);
      NonTerminalNumbered(emitted, maxSeq);
      NumberedAscends(rawEvents, maxSeq);
      ArchiveNeedsNoSort(rawEvents);
      forall r | r in records ensures r.seqNo <= maxSeq && r.lastSeq <= maxSeq {
        var k :| 0 <= k < |records| && records[k] == r;
        RecordBelow(rawEvents, Openers(rawEvents)[k], maxSeq);
      }
    }
  }
}
