/** etpo-event-context.ts: the token of the message that triggered an event. */
module EtpoEventContexts {
  import opened Options
  import Decimal

  datatype EtpoContext = EtpoContext(id: string, topic: string, partition: nat, offset: nat)

  const PREFIX := "etpo:"

  function EventToken(c: EtpoContext): string {
    PREFIX + (c.id + (":" + (c.topic + (":" + (Decimal.Digits(c.partition) + (":" + Decimal.Digits(c.offset)))))))
  }

  predicate IsEtpoEvent(token: string) {
    PREFIX <= token
  }

  function Split(s: string): (parts: seq<string>)
    ensures |parts| > 0
  {
    if s == "" then [""]
    else
      var rest := Split(s[1..]);
      if s[0] == ':' then [""] + rest else [[s[0]] + rest[0]] + rest[1..]
  }

  datatype Decoded = NotEtpo | Malformed | Context(context: EtpoContext)

  /** Four fields, and what follows them is ignored; the partition's digits may be followed by anything. */
  function Decode(token: string): Decoded {
    if !IsEtpoEvent(token) then NotEtpo
    else
      var parts := Split(token[|PREFIX|..]);
      if |parts| < 4 || Decimal.Span(parts[2]) == 0 || !Decimal.AllDigits(parts[3]) then Malformed
      else Context(EtpoContext(
        parts[0], parts[1], Decimal.Value(parts[2][..Decimal.Span(parts[2])]), Decimal.Value(parts[3])))
  }

  lemma {:induction false} SplitPlain(s: string)
    requires ':' !in s
    ensures Split(s) == [s]
  {
    if s != "" {
      assert s == [s[0]] + s[1..];
      SplitPlain(s[1..]);
    }
  }

  lemma {:induction false} SplitAt(a: string, rest: string)
    requires ':' !in a
    ensures Split(a + (":" + rest)) == [a] + Split(rest)
  {
    var s := a + (":" + rest);
    if a == "" {
      assert s[1..] == rest;
    } else {
      assert s[1..] == a[1..] + (":" + rest);
      SplitAt(a[1..], rest);
      assert a == [a[0]] + a[1..];
    }
  }

  lemma {:induction false} PartsAreColonFree(s: string)
    ensures forall k :: 0 <= k < |Split(s)| ==> ':' !in Split(s)[k]
  {
    if s != "" {
      PartsAreColonFree(s[1..]);
    }
  }

  lemma DigitsSplit(n: nat)
    ensures ':' !in Decimal.Digits(n)
    ensures Decimal.Span(Decimal.Digits(n)) == |Decimal.Digits(n)| && Decimal.Value(Decimal.Digits(n)) == n
  {
    Decimal.ValueOfDigits(n);
    Decimal.SpanOfDigits(Decimal.Digits(n), "");
    assert Decimal.Digits(n) + "" == Decimal.Digits(n);
    assert forall i :: 0 <= i < |Decimal.Digits(n)| ==> Decimal.IsDigit(Decimal.Digits(n)[i]);
  }

  lemma DecodeRecovers(c: EtpoContext)
    requires ':' !in c.id && ':' !in c.topic
    ensures Decode(EventToken(c)) == Context(c)
  {
    var offset := Decimal.Digits(c.offset);
    var partition := Decimal.Digits(c.partition);
    var third := partition + (":" + offset);
    var second := c.topic + (":" + third);
    assert EventToken(c)[|PREFIX|..] == c.id + (":" + second);
    DigitsSplit(c.partition);
    DigitsSplit(c.offset);
    SplitAt(c.id, second);
    SplitAt(c.topic, third);
    SplitAt(partition, offset);
    SplitPlain(offset);
    assert Split(EventToken(c)[|PREFIX|..]) == [c.id] + ([c.topic] + ([partition] + [offset]));
    assert partition[..|partition|] == partition;
    hide Split, Decimal.Digits, Decimal.Value, Decimal.Span;
  }

  /** The text of one token. */
  lemma TokenText()
    ensures EventToken(EtpoContext("1", "orders", 2, 30)) == "etpo:1:orders:2:30"
  {
    assert Decimal.Digits(30) == Decimal.Digits(3) + ['0'] && Decimal.Digits(3) == "3" && Decimal.Digits(2) == "2";
  }

  /** Decoding recovers exactly the contexts whose id and topic hold no colon. */
  lemma DecodeInverts(c: EtpoContext)
    ensures Decode(EventToken(c)) == Context(c) <==> ':' !in c.id && ':' !in c.topic
  {
    if ':' !in c.id && ':' !in c.topic {
      DecodeRecovers(c);
    } else {
      PartsAreColonFree(EventToken(c)[|PREFIX|..]);
    }
  }
}

/** snapshot-triggering-events.ts: per topic and partition, the highest offset that has triggered an event. */
module TriggeringEvents {
  import opened Options
  import opened EtpoEventContexts
  import Decimal

  datatype Tpo = Tpo(topic: string, partition: nat, offset: nat)

  type Table = map<string, map<nat, nat>>

  function AddTo(t: Table, x: Tpo): Table {
    if x.topic !in t then t[x.topic := map[x.partition := x.offset]]
    else if x.partition !in t[x.topic] || x.offset > t[x.topic][x.partition]
    then
      var offsets: map<nat, nat> := t[x.topic][x.partition := x.offset];
      t[x.topic := offsets]
    else t
  }

  predicate Duplicate(t: Table, x: Tpo) {
    x.topic in t && x.partition in t[x.topic] && x.offset <= t[x.topic][x.partition]
  }

  function AddAll(t: Table, xs: seq<Tpo>): Table {
    if xs == [] then t else AddTo(AddAll(t, xs[..|xs| - 1]), xs[|xs| - 1])
  }

  predicate Covers(added: Tpo, x: Tpo) {
    added.topic == x.topic && added.partition == x.partition && added.offset >= x.offset
  }

  ghost predicate CoveredBy(xs: seq<Tpo>, x: Tpo) {
    exists k :: 0 <= k < |xs| && Covers(xs[k], x)
  }

  lemma AddingCovers(t: Table, added: Tpo, x: Tpo)
    ensures Duplicate(AddTo(t, added), x) <==> Duplicate(t, x) || Covers(added, x)
  {
  }

  lemma {:induction false} AddAllCovers(t: Table, xs: seq<Tpo>, x: Tpo)
    ensures Duplicate(AddAll(t, xs), x) <==> Duplicate(t, x) || CoveredBy(xs, x)
  {
    if xs != [] {
      var n := |xs| - 1;
      AddAllCovers(t, xs[..n], x);
      AddingCovers(AddAll(t, xs[..n]), xs[n], x);
      if k :| 0 <= k < |xs| && Covers(xs[k], x) && k < n {
        assert xs[..n][k] == xs[k];
      }
      if k :| 0 <= k < n && Covers(xs[..n][k], x) {
        assert xs[k] == xs[..n][k];
      }
    }
  }

  /** The table rejects an event exactly when the full log holds one of its topic and partition at least as late. */
  lemma {:induction false} WatermarkRefinesLog(xs: seq<Tpo>, x: Tpo)
    ensures Duplicate(AddAll(map[], xs), x) <==> CoveredBy(xs, x)
  {
    AddAllCovers(map[], xs, x);
  }

  /** Two tables that reject the same are the same, apart from topics without partitions. */
  ghost predicate SameAnswers(t: Table, u: Table) {
    forall x :: Duplicate(t, x) <==> Duplicate(u, x)
  }

  /** Neither the order nor the repetition of adds matters. */
  lemma OrderAndRepetitionDoNotMatter(xs: seq<Tpo>, ys: seq<Tpo>)
    requires forall x :: x in xs <==> x in ys
    ensures SameAnswers(AddAll(map[], xs), AddAll(map[], ys))
  {
    forall x ensures Duplicate(AddAll(map[], xs), x) <==> Duplicate(AddAll(map[], ys), x) {
      WatermarkRefinesLog(xs, x);
      WatermarkRefinesLog(ys, x);
      if k :| 0 <= k < |xs| && Covers(xs[k], x) {
        assert xs[k] in ys;
      }
      if k :| 0 <= k < |ys| && Covers(ys[k], x) {
        assert ys[k] in xs;
      }
    }
  }

  // ---------- tokens ----------

  function TpoOf(token: string): Option<Tpo> {
    match Decode(token)
    case Context(c) => Some(Tpo(c.topic, c.partition, c.offset))
    case _ => None
  }

  /** None where a token cannot be decoded, and adding it throws. */
  function TposOf(tokens: seq<string>): Option<seq<Tpo>> {
    if tokens == [] then Some([])
    else match (TposOf(tokens[..|tokens| - 1]), TpoOf(tokens[|tokens| - 1]))
      case (Some(xs), Some(x)) => Some(xs + [x])
      case _ => None
  }

  /** The events that were triggered by a message of a broker. */
  function EtpoEvents(tokens: seq<string>): seq<string> {
    if tokens == [] then []
    else EtpoEvents(tokens[..|tokens| - 1]) + if IsEtpoEvent(tokens[|tokens| - 1]) then [tokens[|tokens| - 1]] else []
  }

  /** The table made of a previous snapshot's tokens and the triggers of its new events. */
  function Created(previous: seq<string>, triggers: seq<string>): Option<Table> {
    match (TposOf(previous), TposOf(EtpoEvents(triggers)))
    case (Some(xs), Some(ys)) => Some(AddAll(AddAll(map[], xs), ys))
    case _ => None
  }

  /** Serialized entries have no id of their own. */
  function TokenOf(x: Tpo): string {
    EventToken(EtpoContext("????", x.topic, x.partition, x.offset))
  }

  lemma SerializedText(topic: string, partition: nat, offset: nat)
    ensures TokenOf(Tpo(topic, partition, offset)) ==
      "etpo:????:" + (topic + (":" + (Decimal.Digits(partition) + (":" + Decimal.Digits(offset)))))
  {
    assert "etpo:????:" == PREFIX + ("????" + ":");
    hide Decimal.Digits;
  }

  function TokensOf(xs: seq<Tpo>): seq<string> {
    seq(|xs|, k requires 0 <= k < |xs| => TokenOf(xs[k]))
  }

  predicate Entry(t: Table, x: Tpo) {
    x.topic in t && x.partition in t[x.topic] && x.offset == t[x.topic][x.partition]
  }

  /** Exactly the entries of the table, in any order. */
  ghost predicate ListsEntries(xs: seq<Tpo>, t: Table) {
    forall x :: x in xs <==> Entry(t, x)
  }

  ghost predicate Serializes(tokens: seq<string>, t: Table) {
    exists xs :: tokens == TokensOf(xs) && ListsEntries(xs, t)
  }

  ghost predicate ColonFree(t: Table) {
    forall topic :: topic in t ==> ':' !in topic
  }

  class SnapshotTriggeringEvents {
    var topicPartitionOffsets: Table

    constructor ()
      ensures topicPartitionOffsets == map[]
    {
      topicPartitionOffsets := map[];
    }

    method Add(triggeringEvent: string) returns (ok: bool)
      modifies this
      ensures match TpoOf(triggeringEvent)
        case Some(x) => ok && topicPartitionOffsets == AddTo(old(topicPartitionOffsets), x)
        case None => !ok && topicPartitionOffsets == old(topicPartitionOffsets)
    {
      match Decode(triggeringEvent) {
        case Context(c) =>
          if c.topic !in topicPartitionOffsets {
            topicPartitionOffsets := topicPartitionOffsets[c.topic := map[c.partition := c.offset]];
          } else {
            var offsets := topicPartitionOffsets[c.topic];
            if c.partition !in offsets || c.offset > offsets[c.partition] {
              offsets := offsets[c.partition := c.offset];
              topicPartitionOffsets := topicPartitionOffsets[c.topic := offsets];
            }
          }
          ok := true;
        case _ =>
          ok := false;
      }
    }

    method AddEach(triggeringEvents: seq<string>) returns (ok: bool)
      modifies this
      ensures ok <==> TposOf(triggeringEvents).Some?
      ensures ok ==> topicPartitionOffsets == AddAll(old(topicPartitionOffsets), TposOf(triggeringEvents).value)
    {
      ok := true;
      for k := 0 to |triggeringEvents|
        invariant TposOf(triggeringEvents[..k]).Some?
        invariant topicPartitionOffsets == AddAll(old(topicPartitionOffsets), TposOf(triggeringEvents[..k]).value)
      {
        assert triggeringEvents[..k + 1][..k] == triggeringEvents[..k];
        var added := Add(triggeringEvents[k]);
        if !added {
          NoneOfMore(triggeringEvents, k + 1);
          return false;
        }
        ghost var xs := TposOf(triggeringEvents[..k]).value;
        assert TposOf(triggeringEvents[..k + 1]).value[..|xs|] == xs;
      }
      assert triggeringEvents[..|triggeringEvents|] == triggeringEvents;
    }

    /** The table of a new snapshot: the previous snapshot's entries, then the events, then their context. */
    static method Create(previous: seq<string>, events: seq<string>, eventToken: string)
      returns (ste: SnapshotTriggeringEvents, ok: bool)
      ensures fresh(ste)
      ensures match Created(previous, events + [eventToken])
        case Some(t) => ok && ste.topicPartitionOffsets == t
        case None => !ok
    {
      ste := new SnapshotTriggeringEvents();
      ok := ste.AddEach(previous);
      if ok {
        ok := ste.AddEach(EtpoEvents(events + [eventToken]));
      }
    }

    method CheckForDuplicateEvent(x: Tpo) returns (duplicate: bool)
      ensures duplicate == Duplicate(topicPartitionOffsets, x)
    {
      duplicate := false;
      if x.topic in topicPartitionOffsets {
        var offsets := topicPartitionOffsets[x.topic];
        duplicate := x.partition in offsets && x.offset <= offsets[x.partition];
      }
    }

    method Serialize() returns (tokens: seq<string>)
      ensures Serializes(tokens, topicPartitionOffsets)
    {
      tokens := [];
      ghost var xs: seq<Tpo> := [];
      var topics := topicPartitionOffsets.Keys;
      while topics != {}
        invariant topics <= topicPartitionOffsets.Keys && tokens == TokensOf(xs)
        invariant forall x :: x in xs <==> Entry(topicPartitionOffsets, x) && x.topic !in topics
      {
        var topic :| topic in topics;
        var partitions := topicPartitionOffsets[topic].Keys;
        topics := topics - {topic};
        while partitions != {}
          invariant partitions <= topicPartitionOffsets[topic].Keys && tokens == TokensOf(xs)
          invariant forall x :: x in xs <==>
            Entry(topicPartitionOffsets, x) && x.topic !in topics && !(x.topic == topic && x.partition in partitions)
        {
          var partition :| partition in partitions;
          var x := Tpo(topic, partition, topicPartitionOffsets[topic][partition]);
          tokens, xs := tokens + [TokenOf(x)], xs + [x];
          partitions := partitions - {partition};
        }
      }
    }

    /**
     checkSnapshotForDuplicateEvent: a snapshot without triggering events has no duplicates,
     and neither has a context that is no etpo token; None where decoding throws.
     */
    static method CheckSnapshot(triggeringEvents: Option<seq<string>>, eventToken: string)
      returns (duplicate: Option<bool>)
      ensures duplicate ==
        if triggeringEvents.None? then Some(false)
        else match Decode(eventToken)
          case NotEtpo => Some(false)
          case Malformed => None
          case Context(c) =>
            (match TposOf(triggeringEvents.value)
             case None => None
             case Some(xs) => Some(Duplicate(AddAll(map[], xs), Tpo(c.topic, c.partition, c.offset))))
    {
      if triggeringEvents.None? {
        return Some(false);
      }
      match Decode(eventToken) {
        case NotEtpo => return Some(false);
        case Malformed => return None;
        case Context(c) =>
          var ste := new SnapshotTriggeringEvents();
          var ok := ste.AddEach(triggeringEvents.value);
          if !ok { return None; }
          var d := ste.CheckForDuplicateEvent(Tpo(c.topic, c.partition, c.offset));
          return Some(d);
      }
    }
  }

  lemma {:induction false} NoneOfMore(tokens: seq<string>, k: nat)
    requires k <= |tokens| && TposOf(tokens[..k]).None?
    ensures TposOf(tokens).None?
    decreases |tokens| - k
  {
    if k < |tokens| {
      assert tokens[..k + 1][..k] == tokens[..k];
      NoneOfMore(tokens, k + 1);
    } else {
      assert tokens[..k] == tokens;
    }
  }

  // ---------- chains of snapshots ----------

  lemma {:induction false} TokensAreRead(xs: seq<Tpo>)
    requires forall x :: x in xs ==> ':' !in x.topic
    ensures TposOf(TokensOf(xs)) == Some(xs)
  {
    hide EventToken, Decode;
    if xs != [] {
      var n := |xs| - 1;
      TokensAreRead(xs[..n]);
      assert TokensOf(xs)[..n] == TokensOf(xs[..n]) && xs == xs[..n] + [xs[n]];
      DecodeRecovers(EtpoContext("????", xs[n].topic, xs[n].partition, xs[n].offset));
    }
  }

  /** Reading a snapshot's tokens back gives a table that answers as the one that was serialized. */
  lemma ReloadAnswersTheSame(t: Table, tokens: seq<string>, x: Tpo)
    requires ColonFree(t) && Serializes(tokens, t)
    ensures TposOf(tokens).Some?
    ensures Duplicate(AddAll(map[], TposOf(tokens).value), x) <==> Duplicate(t, x)
  {
    hide EventToken, Decode, AddAll, TposOf;
    var xs :| tokens == TokensOf(xs) && ListsEntries(xs, t);
    assert forall y :: y in xs ==> Entry(t, y);
    TokensAreRead(xs);
    WatermarkRefinesLog(xs, x);
    if Duplicate(t, x) {
      var entry := Tpo(x.topic, x.partition, t[x.topic][x.partition]);
      assert entry in xs;
      var k :| 0 <= k < |xs| && xs[k] == entry;
      assert Covers(xs[k], x);
    }
    if k :| 0 <= k < |xs| && Covers(xs[k], x) {
      assert Entry(t, xs[k]);
    }
  }

  lemma {:induction false} ReadTopicsAreColonFree(tokens: seq<string>)
    ensures TposOf(tokens).Some? ==> forall x :: x in TposOf(tokens).value ==> ':' !in x.topic
  {
    if tokens != [] {
      var n := |tokens| - 1;
      ReadTopicsAreColonFree(tokens[..n]);
      if IsEtpoEvent(tokens[n]) { PartsAreColonFree(tokens[n][|PREFIX|..]); }
    }
  }

  lemma {:induction false} AddingStaysColonFree(t: Table, xs: seq<Tpo>)
    requires ColonFree(t) && forall x :: x in xs ==> ':' !in x.topic
    ensures ColonFree(AddAll(t, xs))
  {
    if xs != [] {
      AddingStaysColonFree(t, xs[..|xs| - 1]);
    }
  }

  function Before(snapshots: seq<seq<string>>, k: nat): seq<string>
    requires k <= |snapshots|
  {
    if k == 0 then [] else snapshots[k - 1]
  }

  /** Each snapshot is made from the tokens of the one before and new triggers, and serialized in some order. */
  ghost predicate Chain(triggers: seq<seq<string>>, tables: seq<Table>, snapshots: seq<seq<string>>) {
    && |triggers| == |tables| == |snapshots|
    && forall k :: 0 <= k < |tables| ==>
         && Created(Before(snapshots, k), triggers[k]) == Some(tables[k])
         && Serializes(snapshots[k], tables[k])
  }

  lemma ChainsHaveChains(triggers: seq<seq<string>>, tables: seq<Table>, snapshots: seq<seq<string>>)
    requires Chain(triggers, tables, snapshots) && tables != []
    ensures var n := |tables| - 1; Chain(triggers[..n], tables[..n], snapshots[..n])
  {
    hide Created, Serializes;
    var n := |tables| - 1;
    forall k | 0 <= k < n
      ensures Created(Before(snapshots[..n], k), triggers[..n][k]) == Some(tables[..n][k])
      ensures Serializes(snapshots[..n][k], tables[..n][k])
    {
      assert Before(snapshots[..n], k) == Before(snapshots, k);
    }
  }

  function Flatten(triggers: seq<seq<string>>): seq<string> {
    if triggers == [] then [] else Flatten(triggers[..|triggers| - 1]) + triggers[|triggers| - 1]
  }

  lemma {:induction false} EtpoEventsOfMore(a: seq<string>, b: seq<string>)
    ensures EtpoEvents(a + b) == EtpoEvents(a) + EtpoEvents(b)
  {
    if b == [] {
      assert a + b == a;
    } else {
      var n := |b| - 1;
      EtpoEventsOfMore(a, b[..n]);
      assert (a + b)[..|a + b| - 1] == a + b[..n];
    }
  }

  lemma EtpoEventsOfOne(token: string)
    ensures EtpoEvents([token]) == if "etpo:" <= token then [token] else []
  {
    assert [token][..0] == [] && EtpoEvents([]) == [];
  }

  /** Exactly the tokens with the prefix are taken, each time and in order; others make no difference. */
  lemma EtpoEventsExactly(a: seq<string>, token: string, b: seq<string>)
    ensures EtpoEvents(a + [token] + b) ==
      if "etpo:" <= token then EtpoEvents(a) + [token] + EtpoEvents(b) else EtpoEvents(a + b)
  {
    EtpoEventsOfMore(a + [token], b);
    EtpoEventsOfMore(a, [token]);
    EtpoEventsOfMore(a, b);
    EtpoEventsOfOne(token);
    assert EtpoEvents(a) + [] == EtpoEvents(a);
    hide EtpoEvents;
  }

  lemma {:induction false} TposOfMore(a: seq<string>, b: seq<string>)
    requires TposOf(a).Some? && TposOf(b).Some?
    ensures TposOf(a + b) == Some(TposOf(a).value + TposOf(b).value)
  {
    if b == [] {
      assert a + b == a && TposOf(a).value + [] == TposOf(a).value;
    } else {
      var n := |b| - 1;
      TposOfMore(a, b[..n]);
      assert (a + b)[..|a + b| - 1] == a + b[..n] && (a + b)[|a + b| - 1] == b[n];
      var xs, ys, y := TposOf(a).value, TposOf(b[..n]).value, TpoOf(b[n]).value;
      assert xs + (ys + [y]) == xs + ys + [y];
    }
  }

  /**
   Through any chain of snapshots, each read back from the one before, the last table
   rejects exactly what one pass over all the triggers of all the snapshots would.
   */
  lemma {:induction false} SnapshotChainRefinesLog(
    triggers: seq<seq<string>>, tables: seq<Table>, snapshots: seq<seq<string>>, x: Tpo)
    requires Chain(triggers, tables, snapshots) && tables != []
    ensures var log := TposOf(EtpoEvents(Flatten(triggers)));
      && ColonFree(tables[|tables| - 1]) && log.Some?
      && (Duplicate(tables[|tables| - 1], x) <==> CoveredBy(log.value, x))
  {
    var n := |tables| - 1;
    var before := Before(snapshots, n);
    LastLink(triggers, tables, snapshots);
    if n > 0 {
      ChainsHaveChains(triggers, tables, snapshots);
      hide *;
      SnapshotChainRefinesLog(triggers[..n], tables[..n], snapshots[..n], x);
      ReloadAnswersTheSame(tables[n - 1], before, x);
      OneMoreSnapshot(before, triggers[n], tables[n], EtpoEvents(Flatten(triggers[..n])), x);
    } else {
      hide *;
      NothingBefore(x);
      assert triggers[..n] == [];
      OneMoreSnapshot(before, triggers[n], tables[n], EtpoEvents(Flatten(triggers[..n])), x);
    }
  }

  lemma LastLink(triggers: seq<seq<string>>, tables: seq<Table>, snapshots: seq<seq<string>>)
    requires Chain(triggers, tables, snapshots) && tables != []
    ensures var n := |tables| - 1;
      && |triggers| == n + 1 == |snapshots|
      && Created(Before(snapshots, n), triggers[n]) == Some(tables[n])
      && (n == 0 ==> Before(snapshots, n) == [])
      && (n > 0 ==> Before(snapshots, n) == snapshots[n - 1] && Serializes(snapshots[n - 1], tables[n - 1]))
      && EtpoEvents(Flatten(triggers)) == EtpoEvents(Flatten(triggers[..n])) + EtpoEvents(triggers[n])
  {
    hide Created, Serializes;
    EtpoEventsOfMore(Flatten(triggers[..|triggers| - 1]), triggers[|triggers| - 1]);
  }

  lemma NothingBefore(x: Tpo)
    ensures EtpoEvents(Flatten([])) == [] && TposOf([]) == Some([])
    ensures !Duplicate(AddAll(map[], []), x) && !CoveredBy([], x)
  {
  }

  lemma OneMoreSnapshot(before: seq<string>, triggers: seq<string>, t: Table, earlier: seq<string>, x: Tpo)
    requires Created(before, triggers) == Some(t) && TposOf(earlier).Some?
    requires Duplicate(AddAll(map[], TposOf(before).value), x) <==> CoveredBy(TposOf(earlier).value, x)
    ensures var log := TposOf(earlier + EtpoEvents(triggers));
      ColonFree(t) && log.Some? && (Duplicate(t, x) <==> CoveredBy(log.value, x))
  {
    var xs, ys := TposOf(before).value, TposOf(EtpoEvents(triggers)).value;
    TposOfMore(earlier, EtpoEvents(triggers));
    ReadTopicsAreColonFree(before);
    ReadTopicsAreColonFree(EtpoEvents(triggers));
    AddingStaysColonFree(map[], xs);
    AddingStaysColonFree(AddAll(map[], xs), ys);
    hide Duplicate, CoveredBy, EtpoEvents, TposOf;
    AddAllCovers(AddAll(map[], xs), ys, x);
    CoveredByMore(TposOf(earlier).value, ys, x);
  }

  lemma CoveredByMore(xs: seq<Tpo>, ys: seq<Tpo>, x: Tpo)
    ensures CoveredBy(xs + ys, x) <==> CoveredBy(xs, x) || CoveredBy(ys, x)
  {
    var all := xs + ys;
    assert forall k :: 0 <= k < |xs| ==> all[k] == xs[k];
    assert forall k :: 0 <= k < |ys| ==> all[|xs| + k] == ys[k];
    if k :| 0 <= k < |ys| && Covers(ys[k], x) { assert Covers(all[|xs| + k], x); }
    if k :| 0 <= k < |xs| && Covers(xs[k], x) { assert Covers(all[k], x); }
  }
}
