/**
 topic-partition-offsets.ts, topic-partition-offset-tracker.ts and
 kafka-message-processor.ts: which position a consumer commits for a partition.
 */
module KafkaOffsets {
  import opened Options

  /** The offsets of a partition that were noted as unprocessed and as processed. */
  datatype Offsets = Offsets(unprocessed: seq<int>, processed: seq<int>)

  const NO_OFFSETS := Offsets([], [])

  function FirstIn(offsets: seq<int>, wanted: seq<int>): Option<int> {
    if offsets == [] then None else if offsets[0] in wanted then Some(offsets[0]) else FirstIn(offsets[1..], wanted)
  }

  function AtLeast(offsets: seq<int>, bound: int): (r: seq<int>)
    ensures forall x :: x in r <==> x in offsets && x >= bound
  {
    if offsets == [] then []
    else (if offsets[0] >= bound then [offsets[0]] else []) + AtLeast(offsets[1..], bound)
  }

  function ToCommit(o: Offsets): Option<int> {
    FirstIn(o.unprocessed, o.processed)
  }

  function Delivered(o: Offsets, offset: int): Offsets {
    o.(unprocessed := o.unprocessed + [offset])
  }

  function Processed(o: Offsets, offset: int): Offsets {
    o.(processed := o.processed + [offset])
  }

  function Committed(o: Offsets, position: int): Offsets {
    Offsets(AtLeast(o.unprocessed, position), AtLeast(o.processed, position))
  }

  lemma {:induction false} FirstInFinds(offsets: seq<int>, wanted: seq<int>)
    ensures match FirstIn(offsets, wanted)
      case None => forall x :: x in offsets ==> x !in wanted
      case Some(u) =>
        && u in offsets && u in wanted
        && exists k :: 0 <= k < |offsets| && offsets[k] == u && forall j :: 0 <= j < k ==> offsets[j] !in wanted
  {
    if offsets != [] && offsets[0] !in wanted {
      FirstInFinds(offsets[1..], wanted);
      match FirstIn(offsets, wanted) {
        case None =>
        case Some(u) =>
          var k :| 0 <= k < |offsets| - 1 && offsets[1..][k] == u
            && forall j :: 0 <= j < k ==> offsets[1..][j] !in wanted;
          forall j | 0 <= j < k + 1 ensures offsets[j] !in wanted {
            if j > 0 { assert offsets[j] == offsets[1..][j - 1]; }
          }
      }
    }
  }

  class TopicPartitionOffsets {
    var unprocessed: seq<int>
    var processed: seq<int>

    ghost function Value(): Offsets
      reads this
    {
      Offsets(unprocessed, processed)
    }

    constructor ()
      ensures Value() == NO_OFFSETS
    {
      unprocessed, processed := [], [];
    }

    method NoteUnprocessed(offset: int)
      modifies this
      ensures Value() == Delivered(old(Value()), offset)
    {
      unprocessed := unprocessed + [offset];
    }

    method NoteProcessed(offset: int)
      modifies this
      ensures Value() == Processed(old(Value()), offset)
    {
      processed := processed + [offset];
    }

    method NoteCommitted(position: int)
      modifies this
      ensures Value() == Committed(old(Value()), position)
    {
      unprocessed, processed := AtLeast(unprocessed, position), AtLeast(processed, position);
    }
  }

  // ---------- all partitions ----------

  datatype TopicPartition = TopicPartition(topic: string, partition: nat)

  type Partitions = map<TopicPartition, Offsets>

  function OffsetsOf(p: Partitions, key: TopicPartition): Offsets {
    if key in p then p[key] else NO_OFFSETS
  }

  /** The positions to commit, one past the offset, for the partitions that have one. */
  function PositionsToCommit(p: Partitions): map<TopicPartition, int> {
    map key | key in p && ToCommit(p[key]).Some? :: ToCommit(p[key]).value + 1
  }

  datatype Position = Position(key: TopicPartition, position: int)

  function NoteAll(p: Partitions, positions: seq<Position>): Partitions {
    if positions == [] then p
    else
      var before := NoteAll(p, positions[..|positions| - 1]);
      var last := positions[|positions| - 1];
      before[last.key := Committed(OffsetsOf(before, last.key), last.position)]
  }

  /** The list has each partition's position once, in some order. */
  ghost predicate Lists(positions: seq<Position>, m: map<TopicPartition, int>) {
    if positions == [] then m == map[]
    else
      var last := positions[|positions| - 1];
      last.key in m && m[last.key] == last.position && Lists(positions[..|positions| - 1], m - {last.key})
  }

  lemma ListsNothing()
    ensures Lists([], map[])
  {
  }

  lemma PositionsAre(p: Partitions)
    ensures PositionsToCommit(p).Keys == set key | key in p && ToCommit(p[key]).Some?
    ensures forall key :: key in PositionsToCommit(p) ==> PositionsToCommit(p)[key] == ToCommit(p[key]).value + 1
  {
  }

  lemma ListsMore(positions: seq<Position>, m: map<TopicPartition, int>, p: Position)
    requires Lists(positions, m) && p.key !in m
    ensures Lists(positions + [p], m[p.key := p.position])
  {
    assert (positions + [p])[..|positions|] == positions;
    assert m[p.key := p.position] - {p.key} == m;
  }

  class TopicPartitionOffsetTracker {
    var state: map<TopicPartition, TopicPartitionOffsets>

    /** No two partitions share their offsets. */
    ghost predicate Valid()
      reads this
    {
      forall k, l :: k in state && l in state && state[k] == state[l] ==> k == l
    }

    ghost function Value(): Partitions
      reads this, state.Values
    {
      map key | key in state :: state[key].Value()
    }

    constructor ()
      ensures Valid() && Value() == map[]
    {
      state := map[];
    }

    method Fetch(key: TopicPartition) returns (offsets: TopicPartitionOffsets)
      requires Valid()
      modifies this
      ensures Valid() && key in state && offsets == state[key]
      ensures forall k :: k in old(state) ==> k in state && state[k] == old(state)[k]
      ensures if key in old(state) then state == old(state)
        else state == old(state)[key := offsets] && fresh(offsets) && offsets.Value() == NO_OFFSETS
    {
      if key !in state {
        var empty := new TopicPartitionOffsets();
        state := state[key := empty];
      }
      offsets := state[key];
    }

    method NoteUnprocessed(key: TopicPartition, offset: int)
      requires Valid()
      modifies this, state.Values
      ensures Valid() && fresh(state.Values - old(state.Values))
      ensures Value() == old(Value())[key := Delivered(OffsetsOf(old(Value()), key), offset)]
    {
      var offsets := Fetch(key);
      offsets.NoteUnprocessed(offset);
    }

    method NoteProcessed(key: TopicPartition, offset: int)
      requires Valid()
      modifies this, state.Values
      ensures Valid() && fresh(state.Values - old(state.Values))
      ensures Value() == old(Value())[key := Processed(OffsetsOf(old(Value()), key), offset)]
    {
      var offsets := Fetch(key);
      offsets.NoteProcessed(offset);
    }

    method NoteOneCommitted(key: TopicPartition, position: int)
      requires Valid()
      modifies this, state.Values
      ensures Valid() && fresh(state.Values - old(state.Values))
      ensures Value() == old(Value())[key := Committed(OffsetsOf(old(Value()), key), position)]
    {
      hide Committed;
      var offsets := Fetch(key);
      offsets.NoteCommitted(position);
    }

    method NoteCommitted(positions: seq<Position>)
      requires Valid()
      modifies this, state.Values
      ensures Valid() && fresh(state.Values - old(state.Values))
      ensures Value() == NoteAll(old(Value()), positions)
    {
      for k := 0 to |positions|
        invariant Valid() && fresh(state.Values - old(state.Values))
        invariant Value() == NoteAll(old(Value()), positions[..k])
      {
        assert positions[..k + 1][..k] == positions[..k];
        NoteOneCommitted(positions[k].key, positions[k].position);
      }
      assert positions[..|positions|] == positions;
    }

    method OffsetsToCommit() returns (positions: seq<Position>)
      requires Valid()
      ensures Lists(positions, PositionsToCommit(Value()))
    {
      hide FirstIn, PositionsToCommit, Lists;
      positions := [];
      ListsNothing();
      var keys := state.Keys;
      ghost var all := PositionsToCommit(Value());
      PositionsAre(Value());
      ghost var listed: map<TopicPartition, int> := map[];
      while keys != {}
        invariant keys <= state.Keys && Lists(positions, listed)
        invariant listed.Keys == all.Keys - keys && forall key :: key in listed ==> listed[key] == all[key]
      {
        var key :| key in keys;
        var offset := FirstIn(state[key].unprocessed, state[key].processed);
        assert Value()[key] == state[key].Value();
        if offset.Some? {
          ListsMore(positions, listed, Position(key, offset.value + 1));
          positions := positions + [Position(key, offset.value + 1)];
          listed := listed[key := offset.value + 1];
        }
        keys := keys - {key};
      }
      assert listed == all;
    }
  }

  // ---------- one message after the other ----------

  /** What the broker makes of a commit: refused, stored, or stored with the answer lost. */
  datatype CommitOutcome = Noted | Refused | AnswerLost

  datatype Event =
    | EachMessage(key: TopicPartition, offset: int, handled: bool, outcome: CommitOutcome)
    | NotedAgain(positions: seq<Position>)

  function Attempted(p: Partitions, key: TopicPartition, offset: int, handled: bool): Partitions {
    var delivered := p[key := Delivered(OffsetsOf(p, key), offset)];
    if handled then delivered[key := Processed(delivered[key], offset)] else delivered
  }

  /** kafka-message-processor.ts, with all its handlers as one. */
  class KafkaMessageProcessor {
    const tracker: TopicPartitionOffsetTracker

    constructor ()
      ensures fresh(tracker) && tracker.Valid() && tracker.Value() == map[]
    {
      tracker := new TopicPartitionOffsetTracker();
    }

    /** A message whose handlers fail stays unprocessed. */
    method Process(key: TopicPartition, offset: int, handled: bool)
      requires tracker.Valid()
      modifies tracker, tracker.state.Values
      ensures tracker.Valid() && fresh(tracker.state.Values - old(tracker.state.Values))
      ensures tracker.Value() == Attempted(old(tracker.Value()), key, offset, handled)
    {
      tracker.NoteUnprocessed(key, offset);
      if handled {
        tracker.NoteProcessed(key, offset);
      }
    }

    /** kafka-message-consumer.ts: processes a message and commits what there is to commit. */
    method EachMessage(key: TopicPartition, offset: int, handled: bool, outcome: CommitOutcome)
      returns (committed: seq<Position>)
      requires tracker.Valid()
      modifies tracker, tracker.state.Values
      ensures tracker.Valid() && fresh(tracker.state.Values - old(tracker.state.Values))
      ensures var p := Attempted(old(tracker.Value()), key, offset, handled);
        if !handled then committed == [] && tracker.Value() == p
        else
          && Lists(committed, PositionsToCommit(p))
          && tracker.Value() == if outcome == Noted then NoteAll(p, committed) else p
    {
      hide NoteAll, PositionsToCommit, Lists, Attempted;
      Process(key, offset, handled);
      committed := [];
      if handled {
        committed := tracker.OffsetsToCommit();
        if outcome == Noted {
          tracker.NoteCommitted(committed);
        }
      }
    }
  }

  /** Noting a list of positions notes each partition's own, in whatever order they are listed. */
  lemma {:induction false} NotingListed(
    p: Partitions, positions: seq<Position>, m: map<TopicPartition, int>, key: TopicPartition)
    requires Lists(positions, m)
    ensures OffsetsOf(NoteAll(p, positions), key) ==
      if key in m then Committed(OffsetsOf(p, key), m[key]) else OffsetsOf(p, key)
  {
    if positions != [] {
      var last := positions[|positions| - 1];
      NotingListed(p, positions[..|positions| - 1], m - {last.key}, key);
    }
  }

  /** One partition and its past: what was delivered, what was processed, and the positions that the broker stored. */
  datatype Track = Track(
    offsets: Offsets,
    last: Option<int>,
    failed: bool,
    delivered: set<int>,
    done: set<int>,
    stored: seq<int>)

  function AttemptOn(t: Track, offset: int, handled: bool): Track {
    Track(
      if handled then Processed(Delivered(t.offsets, offset), offset) else Delivered(t.offsets, offset),
      Some(offset),
      !handled,
      t.delivered + {offset},
      if handled then t.done + {offset} else t.done,
      t.stored)
  }

  function CommitOn(t: Track, outcome: CommitOutcome): Track {
    match ToCommit(t.offsets)
    case None => t
    case Some(u) =>
      if outcome == Refused then t
      else t.(stored := t.stored + [u + 1],
              offsets := if outcome == Noted then Committed(t.offsets, u + 1) else t.offsets)
  }

  /** Every message that is handled, of whatever partition, makes the consumer commit for all partitions. */
  function NextTrack(t: Track, key: TopicPartition, e: Event): Track {
    match e
    case EachMessage(k, offset, handled, outcome) =>
      var attempted := if k == key then AttemptOn(t, offset, handled) else t;
      if handled then CommitOn(attempted, outcome) else attempted
    case NotedAgain(positions) => t.(offsets := NotedOn(t.offsets, key, positions))
  }

  function NotedOn(o: Offsets, key: TopicPartition, positions: seq<Position>): Offsets {
    if positions == [] then o
    else
      var before := NotedOn(o, key, positions[..|positions| - 1]);
      var last := positions[|positions| - 1];
      if last.key == key then Committed(before, last.position) else before
  }

  function TrackOf(key: TopicPartition, events: seq<Event>): Track {
    if events == [] then Track(NO_OFFSETS, None, false, {}, {}, [])
    else NextTrack(TrackOf(key, events[..|events| - 1]), key, events[|events| - 1])
  }

  /**
   The partition's messages come one at a time and in order: after a failure the same
   message again, after a success the same or a later one. A position that is noted
   again is one that the broker stored.
   */
  predicate InOrder(t: Track, key: TopicPartition, e: Event) {
    match e
    case EachMessage(k, offset, _, _) =>
      k == key && t.last.Some? ==> if t.failed then offset == t.last.value else offset >= t.last.value
    case NotedAgain(positions) =>
      forall i :: 0 <= i < |positions| && positions[i].key == key ==> positions[i].position in t.stored
  }

  predicate AllInOrder(key: TopicPartition, events: seq<Event>) {
    forall k :: 0 <= k < |events| ==> InOrder(TrackOf(key, events[..k]), key, events[k])
  }

  predicate Sorted(s: seq<int>) {
    forall i, j :: 0 <= i < j < |s| ==> s[i] <= s[j]
  }

  /** All that is delivered and not processed is the last message, and only if it failed. */
  ghost predicate Sound(t: Track) {
    && Sorted(t.offsets.unprocessed) && Sorted(t.stored)
    && (t.last.None? ==> t.delivered == {})
    && (forall x :: x in t.offsets.unprocessed ==> x in t.delivered)
    && (forall x :: x in t.offsets.processed ==> x in t.done)
    && (forall x :: x in t.delivered ==> x <= t.last.value && (x in t.done || (t.failed && x == t.last.value)))
    && (forall x :: x in t.offsets.unprocessed && x !in t.offsets.processed ==> t.failed && x == t.last.value)
    && (forall p :: p in t.stored ==> p - 1 in t.done && p - 1 in t.delivered)
    && (forall p, x :: p in t.stored && x in t.offsets.unprocessed ==> p - 1 <= x)
  }

  /** What an event does to all partitions, when these positions were sent to the broker. */
  ghost predicate Happens(p: Partitions, e: Event, committed: seq<Position>, q: Partitions) {
    match e
    case EachMessage(key, offset, handled, outcome) =>
      var attempted := Attempted(p, key, offset, handled);
      if handled then
        && Lists(committed, PositionsToCommit(attempted))
        && q == if outcome == Noted then NoteAll(attempted, committed) else attempted
      else committed == [] && q == attempted
    case NotedAgain(positions) => committed == [] && q == NoteAll(p, positions)
  }

  /** The position that was sent for a partition, if the broker stored it. */
  function StoredFor(e: Event, committed: seq<Position>, key: TopicPartition): seq<int> {
    if committed == [] || !e.EachMessage? || e.outcome == Refused then []
    else
      var last := committed[|committed| - 1];
      StoredFor(e, committed[..|committed| - 1], key) + if last.key == key then [last.position] else []
  }

  lemma {:induction false} StoredListed(
    e: Event, committed: seq<Position>, m: map<TopicPartition, int>, key: TopicPartition)
    requires Lists(committed, m) && e.EachMessage? && e.outcome != Refused
    ensures StoredFor(e, committed, key) == if key in m then [m[key]] else []
  {
    if committed != [] {
      var last := committed[|committed| - 1];
      StoredListed(e, committed[..|committed| - 1], m - {last.key}, key);
    }
  }

  /** What a handled message does for all partitions is, for each, what its track does. */
  lemma MessagesMoveTracks(p: Partitions, e: Event, committed: seq<Position>, key: TopicPartition, t: Track)
    requires e.EachMessage? && e.handled && t.offsets == OffsetsOf(p, key)
    requires Lists(committed, PositionsToCommit(Attempted(p, e.key, e.offset, true)))
    ensures var attempted := Attempted(p, e.key, e.offset, true);
      var next := NextTrack(t, key, e);
      && next.offsets == OffsetsOf(if e.outcome == Noted then NoteAll(attempted, committed) else attempted, key)
      && next.stored == t.stored + StoredFor(e, committed, key)
  {
    var attempted := Attempted(p, e.key, e.offset, true);
    AttemptsMoveTracks(p, e.key, e.offset, key, t);
    NotingListed(attempted, committed, PositionsToCommit(attempted), key);
    if e.outcome != Refused { StoredListed(e, committed, PositionsToCommit(attempted), key); }
    assert e.outcome == Refused ==> t.stored + StoredFor(e, committed, key) == t.stored;
    hide Committed, NoteAll, Attempted, OffsetsOf, ToCommit, PositionsToCommit, Lists, StoredFor;
  }

  lemma {:induction false} NotingMovesTracks(p: Partitions, positions: seq<Position>, key: TopicPartition)
    ensures OffsetsOf(NoteAll(p, positions), key) == NotedOn(OffsetsOf(p, key), key, positions)
  {
    if positions != [] {
      NotingMovesTracks(p, positions[..|positions| - 1], key);
    }
  }

  /** All partitions over a run of the consumer, and the positions that it sent at each event. */
  ghost predicate ConsumerRun(events: seq<Event>, ps: seq<Partitions>, sent: seq<seq<Position>>) {
    && |ps| == |events| + 1 && |sent| == |events| && ps[0] == map[]
    && forall k :: 0 <= k < |events| ==> Happens(ps[k], events[k], sent[k], ps[k + 1])
  }

  function AllStored(events: seq<Event>, sent: seq<seq<Position>>, key: TopicPartition): seq<int>
    requires |sent| == |events|
  {
    if events == [] then []
    else
      var n := |events| - 1;
      AllStored(events[..n], sent[..n], key) + StoredFor(events[n], sent[n], key)
  }

  /** In every run of the consumer, each partition's offsets and stored positions are those of its track. */
  lemma {:induction false} ConsumerFollowsTracks(
    events: seq<Event>, ps: seq<Partitions>, sent: seq<seq<Position>>, key: TopicPartition)
    requires ConsumerRun(events, ps, sent)
    ensures OffsetsOf(ps[|events|], key) == TrackOf(key, events).offsets
    ensures AllStored(events, sent, key) == TrackOf(key, events).stored
  {
    if events != [] {
      var n := |events| - 1;
      ConsumerFollowsTracks(events[..n], ps[..n + 1], sent[..n], key);
      var t := TrackOf(key, events[..n]);
      assert Happens(ps[n], events[n], sent[n], ps[n + 1]);
      OneEventFollows(ps[n], events[n], sent[n], ps[n + 1], key, t);
    }
  }

  lemma OneEventFollows(p: Partitions, e: Event, committed: seq<Position>, q: Partitions, key: TopicPartition, t: Track)
    requires Happens(p, e, committed, q) && t.offsets == OffsetsOf(p, key)
    ensures NextTrack(t, key, e).offsets == OffsetsOf(q, key)
    ensures NextTrack(t, key, e).stored == t.stored + StoredFor(e, committed, key)
  {
    match e {
      case EachMessage(_, _, handled, _) =>
        if handled {
          MessagesMoveTracks(p, e, committed, key, t);
        }
      case NotedAgain(positions) => NotingMovesTracks(p, positions, key);
    }
  }

  lemma AttemptsMoveTracks(p: Partitions, k: TopicPartition, offset: int, key: TopicPartition, t: Track)
    requires t.offsets == OffsetsOf(p, key)
    ensures var attempted := Attempted(p, k, offset, true);
      var offsets := (if k == key then AttemptOn(t, offset, true) else t).offsets;
      && offsets == OffsetsOf(attempted, key)
      && (key in PositionsToCommit(attempted) <==> ToCommit(offsets).Some?)
      && (key in PositionsToCommit(attempted) ==> PositionsToCommit(attempted)[key] == ToCommit(offsets).value + 1)
  {
    assert ToCommit(NO_OFFSETS) == None;
    hide FirstIn;
  }

  // ---------- every run in order ----------

  lemma {:induction false} AtLeastSorts(s: seq<int>, bound: int)
    requires Sorted(s)
    ensures Sorted(AtLeast(s, bound))
  {
    if s != [] {
      AtLeastSorts(s[1..], bound);
      var rest := AtLeast(s[1..], bound);
      forall k | 0 <= k < |rest| ensures s[0] <= rest[k] {
        assert rest[k] in rest;
        var j :| 0 <= j < |s| - 1 && s[1..][j] == rest[k];
        assert s[0] <= s[j + 1];
      }
    }
  }

  lemma SortedMore(s: seq<int>, x: int)
    requires Sorted(s) && forall y :: y in s ==> y <= x
    ensures Sorted(s + [x])
  {
    assert forall k :: 0 <= k < |s| ==> s[k] in s;
  }

  lemma AttemptingIsSound(t: Track, offset: int, handled: bool)
    requires Sound(t) && (t.last.Some? ==> if t.failed then offset == t.last.value else offset >= t.last.value)
    ensures Sound(AttemptOn(t, offset, handled))
  {
    SortedMore(t.offsets.unprocessed, offset);
    hide Sorted;
  }

  lemma CommittingIsSound(t: Track, outcome: CommitOutcome)
    requires Sound(t)
    ensures Sound(CommitOn(t, outcome))
  {
    FirstInFinds(t.offsets.unprocessed, t.offsets.processed);
    hide FirstIn;
    if ToCommit(t.offsets).Some? {
      SortedMore(t.stored, ToCommit(t.offsets).value + 1);
      AtLeastSorts(t.offsets.unprocessed, ToCommit(t.offsets).value + 1);
    }
  }

  lemma {:induction false} NotingAgainIsSound(t: Track, key: TopicPartition, positions: seq<Position>)
    requires Sound(t)
    ensures Sound(t.(offsets := NotedOn(t.offsets, key, positions)))
  {
    if positions != [] {
      var last := positions[|positions| - 1];
      NotingAgainIsSound(t, key, positions[..|positions| - 1]);
      AtLeastSorts(NotedOn(t.offsets, key, positions[..|positions| - 1]).unprocessed, last.position);
    }
  }

  lemma {:induction false} EveryTrackIsSound(key: TopicPartition, events: seq<Event>)
    requires AllInOrder(key, events)
    ensures Sound(TrackOf(key, events))
  {
    if events != [] {
      var n := |events| - 1;
      var t := TrackOf(key, events[..n]);
      assert forall k :: 0 <= k <= n ==> events[..n][..k] == events[..k];
      EveryTrackIsSound(key, events[..n]);
      hide Sound, AttemptOn, CommitOn;
      match events[n] {
        case EachMessage(k, offset, handled, outcome) =>
          if k == key { AttemptingIsSound(t, offset, handled); }
          if handled { CommittingIsSound(if k == key then AttemptOn(t, offset, handled) else t, outcome); }
        case NotedAgain(positions) => NotingAgainIsSound(t, key, positions);
      }
    }
  }

  lemma SoundIsSafe(t: Track)
    requires Sound(t)
    ensures forall p, d :: p in t.stored && d in t.delivered && d < p ==> d in t.done
    ensures Sorted(t.stored)
  {
  }

  /**
   When a partition's messages come one at a time and in order, each retried until it is
   handled, then at every moment everything delivered below a committed position has been
   processed, and committed positions never go back: whatever handlers fail, commits are
   refused or answers to them lost, and positions noted more than once.
   */
  lemma CommittedPositionsAreSafe(key: TopicPartition, events: seq<Event>)
    requires AllInOrder(key, events)
    ensures var t := TrackOf(key, events);
      && (forall p, d :: p in t.stored && d in t.delivered && d < p ==> d in t.done)
      && Sorted(t.stored)
  {
    EveryTrackIsSound(key, events);
    SoundIsSafe(TrackOf(key, events));
    hide TrackOf, Sound;
  }

  /** So every position of the partition that a run of the consumer sends, and the broker stores, is safe. */
  lemma ConsumerCommitsSafely(events: seq<Event>, ps: seq<Partitions>, sent: seq<seq<Position>>, key: TopicPartition)
    requires ConsumerRun(events, ps, sent) && AllInOrder(key, events)
    ensures var t := TrackOf(key, events);
      forall p, d :: p in AllStored(events, sent, key) && d in t.delivered && d < p ==> d in t.done
    ensures Sorted(AllStored(events, sent, key))
  {
    ConsumerFollowsTracks(events, ps, sent, key);
    CommittedPositionsAreSafe(key, events);
    hide TrackOf, AllStored, ConsumerRun, AllInOrder, Sorted;
  }

  /** Nothing is noted but the message that failed last. */
  ghost predicate Clean(t: Track) {
    && t.offsets.processed == [] && (t.failed ==> t.last.Some?)
    && forall x :: x in t.offsets.unprocessed ==> t.failed && t.last == Some(x)
  }

  lemma {:induction false} NothingAtLeast(s: seq<int>, offset: int)
    requires forall x :: x in s ==> x == offset
    ensures AtLeast(s, offset + 1) == []
  {
    if s != [] {
      assert s[0] in s && forall x :: x in s[1..] ==> x in s;
      NothingAtLeast(s[1..], offset);
    }
  }

  lemma CommitClears(o: Offsets, offset: int)
    requires (forall x :: x in o.unprocessed ==> x == offset) && o.processed == []
    ensures var done := Processed(Delivered(o, offset), offset);
      ToCommit(done) == Some(offset) && Committed(done, offset + 1) == NO_OFFSETS
  {
    var done := Processed(Delivered(o, offset), offset);
    assert done.processed == [offset];
    assert offset in done.unprocessed && offset in done.processed;
    ToCommitIsProcessed(done);
    NothingAtLeast(done.unprocessed, offset);
    NothingAtLeast(done.processed, offset);
  }

  lemma AttemptAndCommitClean(t: Track, offset: int, handled: bool)
    requires Clean(t) && (t.failed ==> t.last == Some(offset))
    ensures var attempted := AttemptOn(t, offset, handled);
      if handled then
        Clean(CommitOn(attempted, Noted)) && CommitOn(attempted, Noted).stored == t.stored + [offset + 1]
      else Clean(attempted)
  {
    CommitClears(t.offsets, offset);
    hide ToCommit, Committed;
  }

  lemma {:induction false} NotingAgainIsClean(o: Offsets, key: TopicPartition, positions: seq<Position>)
    ensures forall x :: x in NotedOn(o, key, positions).unprocessed ==> x in o.unprocessed
    ensures o.processed == [] ==> NotedOn(o, key, positions).processed == []
  {
    if positions != [] {
      NotingAgainIsClean(o, key, positions[..|positions| - 1]);
    }
  }

  /** The commits after this partition's own messages are noted. */
  predicate AllNoted(key: TopicPartition, events: seq<Event>) {
    forall k :: 0 <= k < |events| && events[k].EachMessage? && events[k].key == key ==> events[k].outcome == Noted
  }

  lemma {:induction false} EveryTrackIsClean(key: TopicPartition, events: seq<Event>)
    requires AllInOrder(key, events)
    requires AllNoted(key, events)
    ensures Clean(TrackOf(key, events))
  {
    if events != [] {
      var n := |events| - 1;
      var t := TrackOf(key, events[..n]);
      assert forall k :: 0 <= k <= n ==> events[..n][..k] == events[..k];
      EveryTrackIsClean(key, events[..n]);
      match events[n] {
        case EachMessage(k, offset, handled, _) =>
          if k == key { AttemptAndCommitClean(t, offset, handled); } else { ToCommitIsProcessed(t.offsets); }
        case NotedAgain(positions) => NotingAgainIsClean(t.offsets, key, positions);
      }
    }
  }

  /**
   And nothing is left behind: while the commits after this partition's own messages are
   noted, each message that is handled is committed at once.
   */
  lemma HandledMessagesAreCommitted(key: TopicPartition, events: seq<Event>)
    requires events != [] && AllInOrder(key, events)
    requires AllNoted(key, events)
    requires var e := events[|events| - 1]; e.EachMessage? && e.key == key && e.handled
    ensures var n := |events| - 1;
      TrackOf(key, events).stored == TrackOf(key, events[..n]).stored + [events[n].offset + 1]
  {
    var n := |events| - 1;
    assert forall k :: 0 <= k <= n ==> events[..n][..k] == events[..k];
    EveryTrackIsClean(key, events[..n]);
    AttemptAndCommitClean(TrackOf(key, events[..n]), events[n].offset, true);
  }

  // ---------- in order is needed ----------

  predicate InFlight(o: Offsets, d: int) {
    d in o.unprocessed && d !in o.processed
  }

  /** What was processed was delivered before everything that is still in flight. */
  ghost predicate OldestFirst(o: Offsets) {
    forall u, d :: u in o.unprocessed && u in o.processed && InFlight(o, d) ==> u < d
  }

  lemma ToCommitIsProcessed(o: Offsets)
    ensures match ToCommit(o)
      case None => forall x :: x in o.unprocessed ==> x !in o.processed
      case Some(u) => u in o.unprocessed && u in o.processed && |Committed(o, u + 1).unprocessed| < |o.unprocessed|
  {
    FirstInFinds(o.unprocessed, o.processed);
    if ToCommit(o).Some? { AtLeastShrinks(o.unprocessed, ToCommit(o).value + 1); }
  }

  lemma {:induction false} AtLeastShrinks(s: seq<int>, bound: int)
    ensures |AtLeast(s, bound)| <= |s|
    ensures (exists x :: x in s && x < bound) ==> |AtLeast(s, bound)| < |s|
  {
    if s != [] {
      AtLeastShrinks(s[1..], bound);
      if x :| x in s && x < bound && x != s[0] {
        assert x in s[1..];
      }
    }
  }

  /** The positions that are committed, one after the other, until nothing is left to commit. */
  function Commits(o: Offsets): seq<int>
    decreases |o.unprocessed|
  {
    match ToCommit(o)
    case None => []
    case Some(u) =>
      ToCommitIsProcessed(o);
      [u + 1] + Commits(Committed(o, u + 1))
  }

  ghost predicate Safe(o: Offsets, positions: seq<int>) {
    forall p, d :: p in positions && InFlight(o, d) ==> p <= d
  }

  lemma {:induction false} CommitsReach(o: Offsets, u: int)
    requires u in o.unprocessed && u in o.processed
    ensures exists p :: p in Commits(o) && p > u
    decreases |o.unprocessed|
  {
    ToCommitIsProcessed(o);
    hide ToCommit, AtLeast;
    var v := ToCommit(o).value;
    if v < u {
      CommitsReach(Committed(o, v + 1), u);
      var p :| p in Commits(Committed(o, v + 1)) && p > u;
      assert p in Commits(o);
    } else {
      assert v + 1 in Commits(o);
    }
  }

  lemma {:induction false} CommitsAreProcessed(o: Offsets, p: int)
    requires p in Commits(o)
    ensures p - 1 in o.unprocessed && p - 1 in o.processed
    decreases |o.unprocessed|
  {
    ToCommitIsProcessed(o);
    hide ToCommit, AtLeast;
    var v := ToCommit(o).value;
    if p != v + 1 {
      CommitsAreProcessed(Committed(o, v + 1), p);
    }
  }

  /** Committing all there is to commit skips no message in flight if and only if the oldest were processed first. */
  lemma CommitsAreSafeExactlyOldestFirst(o: Offsets)
    ensures Safe(o, Commits(o)) <==> OldestFirst(o)
  {
    if OldestFirst(o) {
      forall p, d | p in Commits(o) && InFlight(o, d) ensures p <= d {
        CommitsAreProcessed(o, p);
      }
    } else {
      var u, d :| u in o.unprocessed && u in o.processed && InFlight(o, d) && u >= d;
      CommitsReach(o, u);
    }
  }

  /** So while all was well, a message may finish safely if and only if it is the oldest in flight. */
  lemma FinishingIsSafeExactlyForTheOldest(o: Offsets, x: int)
    requires OldestFirst(o) && InFlight(o, x)
    ensures Safe(Processed(o, x), Commits(Processed(o, x))) <==> forall d :: InFlight(o, d) ==> x <= d
  {
    var after := Processed(o, x);
    CommitsAreSafeExactlyOldestFirst(after);
    assert forall d :: InFlight(after, d) <==> InFlight(o, d) && d != x;
    if OldestFirst(after) {
      forall d | InFlight(o, d) ensures x <= d {
        assert d != x ==> InFlight(after, d);
      }
    }
  }

  /** Two messages in flight, the later one processed first: the position that is committed skips the other. */
  lemma OutOfOrderSkipsAMessage()
    ensures var o := Processed(Delivered(Delivered(NO_OFFSETS, 1), 2), 2);
      ToCommit(o) == Some(2) && InFlight(o, 1) && !Safe(o, Commits(o))
  {
    var o := Processed(Delivered(Delivered(NO_OFFSETS, 1), 2), 2);
    assert o == Offsets([1, 2], [2]);
    hide Commits, Safe;
    CommitsAreSafeExactlyOldestFirst(o);
    assert 2 in o.unprocessed && 2 in o.processed && InFlight(o, 1);
  }
}
