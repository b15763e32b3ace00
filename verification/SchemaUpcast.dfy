/** aggregate-schema-version.ts and aggregate-schema.ts: bringing stored events to the current schema version. */
module SchemaUpcast {
  import opened Options

  /** A class has a name and an identity of its own; the code compares names. */
  datatype Type = Type(name: string, identity: nat)

  datatype EventRename = EventRename(oldEventName: string, newEventType: Type)
  datatype EventTransform<!J> = EventTransform(eventName: string, upcaster: J -> J)

  datatype SchemaVersion<!J> = SchemaVersion(
    version: int,
    renames: seq<EventRename>,
    transforms: seq<EventTransform<J>>)

  // ---------- aggregate-schema-version.ts ----------

  function FindRename(renames: seq<EventRename>, name: string): Option<Type> {
    if renames == [] then None
    else if renames[0].oldEventName == name then Some(renames[0].newEventType)
    else FindRename(renames[1..], name)
  }

  function FindTransform<J>(transforms: seq<EventTransform<J>>, name: string): Option<J -> J> {
    if transforms == [] then None
    else if transforms[0].eventName == name then Some(transforms[0].upcaster)
    else FindTransform(transforms[1..], name)
  }

  function MaybeRename<J>(v: SchemaVersion<J>, t: Type): Type {
    var found := FindRename(v.renames, t.name);
    if found.Some? then found.value else t
  }

  function FindUpcaster<J>(v: SchemaVersion<J>, t: Type): Option<J -> J> {
    FindTransform(v.transforms, t.name)
  }

  // ---------- collecting, and the meaning of a list of versions ----------

  /** The type at the end of the rename chain and the upcasters met along it. */
  function Collected<J>(versions: seq<SchemaVersion<J>>, t: Type): (Type, seq<J -> J>) {
    if versions == [] then (t, [])
    else
      var n := |versions| - 1;
      var (before, upcasters) := Collected(versions[..n], t);
      var renamed := MaybeRename(versions[n], before);
      (renamed, Pushed(upcasters, FindUpcaster(versions[n], renamed)))
  }

  function Pushed<J>(upcasters: seq<J -> J>, upcaster: Option<J -> J>): seq<J -> J> {
    if upcaster.Some? then upcasters + [upcaster.value] else upcasters
  }

  function Reduced<J>(upcasters: seq<J -> J>, d: J): J {
    if upcasters == [] then d else upcasters[|upcasters| - 1](Reduced(upcasters[..|upcasters| - 1], d))
  }

  /** What the versions mean: each renames, then transforms by the new name. */
  function Applied<J>(versions: seq<SchemaVersion<J>>, t: Type, d: J): (Type, J) {
    if versions == [] then (t, d)
    else
      var renamed := MaybeRename(versions[0], t);
      var upcaster := FindUpcaster(versions[0], renamed);
      Applied(versions[1..], renamed, if upcaster.Some? then upcaster.value(d) else d)
  }

  /** Versions one after the other: a list, and then another. */
  lemma {:induction false} AppliedComposes<J>(v: seq<SchemaVersion<J>>, w: seq<SchemaVersion<J>>, t: Type, d: J)
    ensures var (between, data) := Applied(v, t, d);
      Applied(v + w, t, d) == Applied(w, between, data)
  {
    if v == [] {
      assert v + w == w;
    } else {
      var renamed := MaybeRename(v[0], t);
      var upcaster := FindUpcaster(v[0], renamed);
      assert (v + w)[1..] == v[1..] + w;
      AppliedComposes(v[1..], w, renamed, if upcaster.Some? then upcaster.value(d) else d);
    }
  }

  lemma AppliedOne<J>(v: SchemaVersion<J>, t: Type, d: J)
    ensures var upcaster := FindUpcaster(v, MaybeRename(v, t));
      Applied([v], t, d) == (MaybeRename(v, t), if upcaster.Some? then upcaster.value(d) else d)
  {
    assert [v][1..] == [];
  }

  /**
   What one version does: the first of its renames for the type's name, and then the first of
   its transforms for the new name; nothing where there is none.
   */
  lemma OneVersionExactly<J>(v: SchemaVersion<J>, t: Type, d: J, k: nat, j: nat)
    requires k <= |v.renames| && forall i :: 0 <= i < k ==> v.renames[i].oldEventName != t.name
    requires k < |v.renames| ==> v.renames[k].oldEventName == t.name
    requires var renamed := if k < |v.renames| then v.renames[k].newEventType else t;
      && j <= |v.transforms| && (forall i :: 0 <= i < j ==> v.transforms[i].eventName != renamed.name)
      && (j < |v.transforms| ==> v.transforms[j].eventName == renamed.name)
    ensures Applied([v], t, d) ==
      (if k < |v.renames| then v.renames[k].newEventType else t,
       if j < |v.transforms| then v.transforms[j].upcaster(d) else d)
    ensures Applied([], t, d) == (t, d)
  {
    FindsFirstRename(v.renames, t.name, k);
    FindsFirstTransform(v.transforms, MaybeRename(v, t).name, j);
    AppliedOne(v, t, d);
  }

  lemma {:induction false} FindsFirstRename(renames: seq<EventRename>, name: string, k: nat)
    requires k <= |renames| && forall i :: 0 <= i < k ==> renames[i].oldEventName != name
    requires k < |renames| ==> renames[k].oldEventName == name
    ensures FindRename(renames, name) == if k < |renames| then Some(renames[k].newEventType) else None
  {
    if k > 0 { FindsFirstRename(renames[1..], name, k - 1); }
  }

  lemma {:induction false} FindsFirstTransform<J>(transforms: seq<EventTransform<J>>, name: string, k: nat)
    requires k <= |transforms| && forall i :: 0 <= i < k ==> transforms[i].eventName != name
    requires k < |transforms| ==> transforms[k].eventName == name
    ensures FindTransform(transforms, name) == if k < |transforms| then Some(transforms[k].upcaster) else None
  {
    if k > 0 { FindsFirstTransform(transforms[1..], name, k - 1); }
  }

  lemma ReducedPushed<J>(upcasters: seq<J -> J>, upcaster: Option<J -> J>, d: J)
    ensures Reduced(Pushed(upcasters, upcaster), d) ==
      if upcaster.Some? then upcaster.value(Reduced(upcasters, d)) else Reduced(upcasters, d)
  {
    if upcaster.Some? {
      assert (upcasters + [upcaster.value])[..|upcasters|] == upcasters;
    }
  }

  /** Collecting the upcasters first and reducing afterwards does what the versions mean. */
  lemma {:induction false} CollectingIsApplying<J>(versions: seq<SchemaVersion<J>>, t: Type, d: J)
    ensures var (end, upcasters) := Collected(versions, t);
      Applied(versions, t, d) == (end, Reduced(upcasters, d))
  {
    if versions != [] {
      var n := |versions| - 1;
      CollectingIsApplying(versions[..n], t, d);
      assert versions == versions[..n] + [versions[n]];
      AppliedComposes(versions[..n], [versions[n]], t, d);
      var (before, upcasters) := Collected(versions[..n], t);
      ReducedPushed(upcasters, FindUpcaster(versions[n], MaybeRename(versions[n], before)), d);
      AppliedOne(versions[n], before, Reduced(upcasters, d));
      hide Reduced, Applied, MaybeRename, FindUpcaster, Pushed;
    }
  }

  /** Only the names of types matter. */
  lemma {:induction false} AppliedByName<J>(versions: seq<SchemaVersion<J>>, t: Type, u: Type, d: J)
    requires t.name == u.name
    ensures Applied(versions, t, d).0.name == Applied(versions, u, d).0.name
    ensures Applied(versions, t, d).1 == Applied(versions, u, d).1
  {
    if versions != [] {
      var renamed := MaybeRename(versions[0], t);
      var upcaster := FindUpcaster(versions[0], renamed);
      var data := if upcaster.Some? then upcaster.value(d) else d;
      AppliedByName(versions[1..], renamed, MaybeRename(versions[0], u), data);
    }
  }

  // ---------- events ----------

  /** An event with its recorded schema version, as a value. */
  datatype EventValue<J> = EventValue(eventId: string, eventType: Type, eventData: J, version: Option<int>)

  function CurrentVersion<J>(versions: seq<SchemaVersion<J>>): int
    requires versions != []
  {
    versions[|versions| - 1].version
  }

  /** An event without a version counts as version -1. */
  function VersionOf(version: Option<int>): int {
    if version.Some? then version.value else -1
  }

  /** Whether there is anything to do: a new name for the type, or an upcaster. */
  predicate HasNews<J>(versions: seq<SchemaVersion<J>>, t: Type) {
    Collected(versions, t).0.name != t.name || Collected(versions, t).1 != []
  }

  predicate IsUpcast<J>(versions: seq<SchemaVersion<J>>, t: Type, version: Option<int>)
    requires versions != []
  {
    CurrentVersion(versions) != VersionOf(version) && HasNews(versions, t)
  }

  /** The event after an upcast; without news it is not even given the new version. */
  function MaybeUpcast<J>(versions: seq<SchemaVersion<J>>, e: EventValue<J>): EventValue<J>
    requires versions != []
  {
    if !IsUpcast(versions, e.eventType, e.version) then e
    else
      var (end, upcasters) := Collected(versions, e.eventType);
      e.(eventType := if end.name == e.eventType.name then e.eventType else end,
         eventData := Reduced(upcasters, e.eventData),
         version := Some(CurrentVersion(versions)))
  }

  /**
   An event of any version but the current one is brought through all versions, from the
   first: its data is what they make of it, its type has the name they end at, and it
   keeps its id. An event of the current version is left alone.
   */
  lemma UpcastAppliesAllVersions<J>(versions: seq<SchemaVersion<J>>, e: EventValue<J>)
    requires versions != []
    ensures var r := MaybeUpcast(versions, e);
      var (t, d) := Applied(versions, e.eventType, e.eventData);
      && r.eventId == e.eventId
      && (if VersionOf(e.version) == CurrentVersion(versions) then r == e
          else r.eventData == d && r.eventType.name == t.name)
  {
    CollectingIsApplying(versions, e.eventType, e.eventData);
  }

  /** Upcasting the result again changes nothing. */
  lemma UpcastIsIdempotent<J>(versions: seq<SchemaVersion<J>>, e: EventValue<J>)
    requires versions != []
    ensures MaybeUpcast(versions, MaybeUpcast(versions, e)) == MaybeUpcast(versions, e)
  {
  }

  /** The same id, data and name of the type. */
  ghost predicate Alike<J>(a: EventValue<J>, b: EventValue<J>) {
    a.eventId == b.eventId && a.eventData == b.eventData && a.eventType.name == b.eventType.name
  }

  /**
   Upcasting an unversioned event through two lists of versions at once is upcasting
   through one and then the other, unless a list ends at version -1, the version that an
   unversioned event counts as. Such a list is not applied: it then holds exactly if the
   first list changes nothing, or makes no difference to the second.
   */
  lemma UpcastComposes<J>(v: seq<SchemaVersion<J>>, w: seq<SchemaVersion<J>>, e: EventValue<J>)
    requires v != [] && w != [] && e.version == None
    ensures var both := MaybeUpcast(v + w, e);
      var between := MaybeUpcast(v, e).(version := None);
      var composes := Alike(both, MaybeUpcast(w, between));
      var (t, d) := Applied(v + w, e.eventType, e.eventData);
      if CurrentVersion(w) == -1 then composes <==> Alike(between, e)
      else if CurrentVersion(v) == -1 then
        composes <==>
          Applied(w, e.eventType, e.eventData).1 == d && Applied(w, e.eventType, e.eventData).0.name == t.name
      else composes
  {
    UpcastAppliesAllVersions(v + w, e);
    UpcastAppliesAllVersions(v, e);
    var between := MaybeUpcast(v, e).(version := None);
    UpcastAppliesAllVersions(w, between);
    AppliedComposes(v, w, e.eventType, e.eventData);
    var (t, d) := Applied(v, e.eventType, e.eventData);
    if CurrentVersion(v) != -1 {
      AppliedByName(w, t, between.eventType, d);
    }
    hide Applied, HasNews, Collected, Reduced;
  }

  function Increment(d: int): int {
    d + 1
  }

  function Incrementing(version: int): seq<SchemaVersion<int>> {
    [SchemaVersion(version, [], [EventTransform("Created", Increment)])]
  }

  lemma IncrementingIncrements(version: int, d: int)
    ensures Applied(Incrementing(version), Type("Created", 0), d) == (Type("Created", 0), d + 1)
  {
    var v := Incrementing(version)[0];
    assert FindTransform(v.transforms, "Created") == Some(Increment);
    AppliedOne(v, Type("Created", 0), d);
  }

  /** It happens: with a list that ends at version -1 nothing is upcast at once, but the first list alone upcasts. */
  lemma UpcastNeedNotCompose()
    ensures var e := EventValue("0", Type("Created", 0), 0, None);
      var (v, w) := (Incrementing(1), Incrementing(-1));
      && MaybeUpcast(v + w, e) == e
      && MaybeUpcast(w, MaybeUpcast(v, e).(version := None)).eventData == 1
      && MaybeUpcast(w + v, e).eventData == 2
      && MaybeUpcast(v, MaybeUpcast(w, e).(version := None)).eventData == 1
  {
    var t := Type("Created", 0);
    var e := EventValue("0", t, 0, None);
    var v, w := Incrementing(1), Incrementing(-1);
    IncrementingIncrements(1, 0);
    IncrementingIncrements(1, 1);
    IncrementingIncrements(-1, 0);
    AppliedComposes(w, v, t, 0);
    UpcastAppliesAllVersions(v + w, e);
    UpcastAppliesAllVersions(w + v, e);
    UpcastAppliesAllVersions(v, e);
    UpcastAppliesAllVersions(w, e);
    var between := MaybeUpcast(v, e).(version := None);
    UpcastAppliesAllVersions(w, between);
    hide Applied, MaybeUpcast;
  }

  /** Version 1 renames an event twice over and increments what it is renamed to; version 2 doubles that. */
  function Renaming(): seq<SchemaVersion<int>> {
    [SchemaVersion(1,
       [EventRename("OldEvent", Type("NewEventA", 1)), EventRename("OldEvent", Type("NewEventB", 2))],
       [EventTransform("OldEvent", Doubled), EventTransform("NewEventA", Increment),
        EventTransform("NewEventA", Doubled)]),
     SchemaVersion(2, [], [EventTransform("NewEventA", Doubled), EventTransform("OldEvent", Increment)])]
  }

  function Doubled(d: int): int {
    2 * d
  }

  /**
   Renames and transforms at work: an old event is renamed by the first rename for it and
   transformed under its new name in both versions; an event of the new name is transformed
   alike; one that no version names is left as it is, without a version.
   */
  lemma RenamedEventsAreUpcast(d: int)
    ensures var versions := Renaming();
      && MaybeUpcast(versions, EventValue("0", Type("OldEvent", 0), d, None))
         == EventValue("0", Type("NewEventA", 1), 2 * (d + 1), Some(2))
      && MaybeUpcast(versions, EventValue("0", Type("NewEventA", 1), d, Some(1)))
         == EventValue("0", Type("NewEventA", 1), 2 * (d + 1), Some(2))
      && MaybeUpcast(versions, EventValue("0", Type("SomeEventX", 5), d, None))
         == EventValue("0", Type("SomeEventX", 5), d, None)
  {
    RenamesCollected();
    hide Collected;
    assert [Increment, Doubled][..1] == [Increment] && [Increment][..0] == [];
    assert Reduced([Increment], d) == d + 1 && Reduced([Increment, Doubled], d) == 2 * (d + 1);
  }

  lemma RenamesCollected()
    ensures Collected(Renaming(), Type("OldEvent", 0)) == (Type("NewEventA", 1), [Increment, Doubled])
    ensures Collected(Renaming(), Type("NewEventA", 1)) == (Type("NewEventA", 1), [Increment, Doubled])
    ensures Collected(Renaming(), Type("SomeEventX", 5)) == (Type("SomeEventX", 5), [])
  {
    var v, w := Renaming()[0], Renaming()[1];
    assert "OldEvent"[0] == 'O' && "NewEventA"[0] == 'N' && "SomeEventX"[0] == 'S';
    FindsFirstRename(v.renames, "OldEvent", 0);
    FindsFirstRename(v.renames, "NewEventA", 2);
    FindsFirstRename(v.renames, "SomeEventX", 2);
    FindsFirstTransform(v.transforms, "NewEventA", 1);
    FindsFirstTransform(v.transforms, "SomeEventX", 3);
    FindsFirstTransform(w.transforms, "NewEventA", 0);
    FindsFirstTransform(w.transforms, "SomeEventX", 2);
    CollectedFromTwo(v, w, Type("OldEvent", 0));
    CollectedFromTwo(v, w, Type("NewEventA", 1));
    CollectedFromTwo(v, w, Type("SomeEventX", 5));
    hide FindTransform, Collected;
    assert FindRename(w.renames, "NewEventA") == None && FindRename(w.renames, "SomeEventX") == None;
    assert Renaming() == [v, w] && [] + [Increment] == [Increment] && [Increment] + [Doubled] == [Increment, Doubled];
  }

  lemma CollectedFromTwo<J>(v: SchemaVersion<J>, w: SchemaVersion<J>, t: Type)
    ensures var renamed := MaybeRename(v, t);
      var again := MaybeRename(w, renamed);
      Collected([v, w], t) == (again, Pushed(Pushed([], FindUpcaster(v, renamed)), FindUpcaster(w, again)))
  {
    assert [v, w][..1] == [v] && [v][..0] == [];
    assert Collected([v][..0], t) == (t, []);
    hide MaybeRename, FindUpcaster, Pushed;
  }

  // ---------- aggregate-schema.ts ----------

  /** The metadata object that an event refers to, and that upcasting writes to. */
  class EventMetadata {
    var version: Option<int>

    constructor (version: Option<int>)
      ensures this.version == version
    {
      this.version := version;
    }
  }

  datatype Event<J> = Event(eventId: string, eventType: Type, eventData: J, metadata: Option<EventMetadata>)

  function Version<J>(e: Event<J>): Option<int>
    reads if e.metadata.Some? then {e.metadata.value} else {}
  {
    if e.metadata.Some? then e.metadata.value.version else None
  }

  ghost function Value<J>(e: Event<J>): EventValue<J>
    reads if e.metadata.Some? then {e.metadata.value} else {}
  {
    EventValue(e.eventId, e.eventType, e.eventData, Version(e))
  }

  ghost function Metadata<J>(events: seq<Event<J>>): set<EventMetadata> {
    set e | e in events && e.metadata.Some? :: e.metadata.value
  }

  /** One of the first `k` events has this metadata object, at this version, and is upcast. */
  ghost predicate Stamped<J>(
    versions: seq<SchemaVersion<J>>, events: seq<Event<J>>, k: nat, m: EventMetadata, version: Option<int>)
    requires versions != [] && k <= |events|
  {
    exists j :: 0 <= j < k && events[j].metadata == Some(m) && IsUpcast(versions, events[j].eventType, version)
  }

  ghost function VersionAt<J>(
    versions: seq<SchemaVersion<J>>, events: seq<Event<J>>, k: nat, m: EventMetadata, was: Option<int>): Option<int>
    requires versions != [] && k <= |events|
  {
    if Stamped(versions, events, k, m, was) then Some(CurrentVersion(versions)) else was
  }

  /**
   How event `k`, whose version was `was`, comes out: upcast as a value would be, unless
   an event before it shares its metadata object and was upcast: then as it went in,
   because it seems to be of the current version.
   */
  ghost predicate ComesOut<J>(
    versions: seq<SchemaVersion<J>>, events: seq<Event<J>>, k: nat, was: Option<int>, r: Event<J>)
    requires versions != [] && k < |events|
  {
    var e := events[k];
    if e.metadata.Some? && Stamped(versions, events, k, e.metadata.value, was) then r == e
    else
      var v := MaybeUpcast(versions, EventValue(e.eventId, e.eventType, e.eventData, was));
      r.eventId == v.eventId && r.eventType == v.eventType && r.eventData == v.eventData
  }

  /** What the upcast of an event, as a value, leaves of its type and data. */
  function OwnUpcast<J>(versions: seq<SchemaVersion<J>>, e: Event<J>, was: Option<int>): EventValue<J>
    requires versions != []
  {
    MaybeUpcast(versions, EventValue(e.eventId, e.eventType, e.eventData, was))
  }

  ghost predicate SharesWithAnUpcastEvent<J>(
    versions: seq<SchemaVersion<J>>, events: seq<Event<J>>, k: nat, was: Option<int>)
    requires versions != [] && k < |events|
  {
    events[k].metadata.Some? && Stamped(versions, events, k, events[k].metadata.value, was)
  }

  /**
   An event of a list comes out as its own upcast if and only if no event before it that
   is upcast shares its metadata object, or its own upcast would change nothing.
   */
  lemma ComesOutUpcastExactly<J(!new)>(
    versions: seq<SchemaVersion<J>>, events: seq<Event<J>>, k: nat, was: Option<int>, r: Event<J>)
    requires versions != [] && k < |events| && ComesOut(versions, events, k, was, r)
    ensures var (e, own) := (events[k], OwnUpcast(versions, events[k], was));
      r.eventType == own.eventType && r.eventData == own.eventData <==>
        || !SharesWithAnUpcastEvent(versions, events, k, was)
        || (own.eventType == e.eventType && own.eventData == e.eventData)
  {
    hide Stamped, HasNews, Collected, Reduced;
  }

  /** Two events of one metadata object, and a version that increments their data: the second is not incremented. */
  lemma SharedMetadataIsUpcastOnce(m: EventMetadata, r0: Event<int>, r1: Event<int>)
    requires var (versions, events) := SharingEvents(m);
      ComesOut(versions, events, 0, None, r0) && ComesOut(versions, events, 1, None, r1)
    ensures var (versions, events) := SharingEvents(m);
      && r0.eventData == 1 && r1.eventData == 0
      && OwnUpcast(versions, events[0], None).eventData == OwnUpcast(versions, events[1], None).eventData == 1
  {
    var (versions, events) := SharingEvents(m);
    var t := Type("Created", 0);
    assert versions[..0] == [] && Collected(versions[..0], t) == (t, []);
    assert FindUpcaster(versions[0], t) == Some(Increment);
    assert Collected(versions, t) == (t, [Increment]);
    assert [Increment][..0] == [] && Reduced([Increment], 0) == 1;
    assert events[0].metadata == Some(m) && IsUpcast(versions, events[0].eventType, None);
    assert Stamped(versions, events, 1, m, None) && !Stamped(versions, events, 0, m, None);
  }

  function SharingEvents(m: EventMetadata): (seq<SchemaVersion<int>>, seq<Event<int>>) {
    (Incrementing(1),
     [Event("0", Type("Created", 0), 0, Some(m)), Event("1", Type("Created", 0), 0, Some(m))])
  }

  lemma OneComesOut<J>(
    versions: seq<SchemaVersion<J>>, events: seq<Event<J>>, k: nat, was: Option<int>, now: Option<int>, r: Event<J>)
    requires versions != [] && k < |events|
    requires var e := events[k];
      && now == (if e.metadata.Some? then VersionAt(versions, events, k, e.metadata.value, was) else was)
      && (e.metadata.Some? ==> r.metadata == e.metadata)
      && var v := MaybeUpcast(versions, EventValue(e.eventId, e.eventType, e.eventData, now));
         r.eventId == v.eventId && r.eventType == v.eventType && r.eventData == v.eventData
    ensures ComesOut(versions, events, k, was, r)
  {
    hide HasNews, Collected, Reduced, CurrentVersion, Stamped;
  }

  /** Upcasting event `k` leaves its metadata object at the version that is due after it, and no other changed. */
  lemma VersionsMove<J>(
    versions: seq<SchemaVersion<J>>, events: seq<Event<J>>, k: nat, m: EventMetadata, was: Option<int>)
    requires versions != [] && k < |events|
    ensures var now := VersionAt(versions, events, k, m, was);
      VersionAt(versions, events, k + 1, m, was) ==
        if events[k].metadata == Some(m) then
          MaybeUpcast(versions, EventValue(events[k].eventId, events[k].eventType, events[k].eventData, now)).version
        else now
  {
    hide HasNews, Collected, Reduced, CurrentVersion;
  }

  class AggregateSchema<J(!new)> {
    const versions: seq<SchemaVersion<J>>

    constructor (versions: seq<SchemaVersion<J>>)
      ensures this.versions == versions
    {
      this.versions := versions;
    }

    method FindUpcasters(eventType: Type) returns (end: Type, upcasters: seq<J -> J>)
      ensures (end, upcasters) == Collected(versions, eventType)
    {
      end, upcasters := eventType, [];
      for k := 0 to |versions|
        invariant (end, upcasters) == Collected(versions[..k], eventType)
      {
        assert versions[..k + 1][..k] == versions[..k];
        end := MaybeRename(versions[k], end);
        var upcaster := FindUpcaster(versions[k], end);
        if upcaster.Some? {
          upcasters := upcasters + [upcaster.value];
        }
      }
      assert versions[..|versions|] == versions;
    }

    /** The event's own metadata object is given the version; an event without one gets a new object. */
    method Upcast(e: Event<J>) returns (r: Event<J>)
      requires versions != []
      modifies Metadata([e])
      ensures Value(r) == MaybeUpcast(versions, old(Value(e)))
      ensures e.metadata.Some? ==> r.metadata == e.metadata
      ensures e.metadata.None? && r.metadata.Some? ==> fresh(r.metadata.value)
    {
      r := e;
      if CurrentVersion(versions) != VersionOf(Version(e)) {
        var end, upcasters := FindUpcasters(e.eventType);
        if end.name != e.eventType.name || |upcasters| > 0 {
          var data := e.eventData;
          for k := 0 to |upcasters|
            invariant data == Reduced(upcasters[..k], e.eventData)
          {
            assert upcasters[..k + 1][..k] == upcasters[..k];
            data := upcasters[k](data);
          }
          assert upcasters[..|upcasters|] == upcasters;
          var metadata: EventMetadata;
          if e.metadata.Some? {
            metadata := e.metadata.value;
          } else {
            metadata := new EventMetadata(None);
          }
          assert e.metadata.Some? ==> metadata in Metadata([e]) by { assert e in [e]; }
          metadata.version := Some(CurrentVersion(versions));
          r := Event(e.eventId, if end.name == e.eventType.name then e.eventType else end, data, Some(metadata));
        }
      }
    }

    method UpcastEvents(events: seq<Event<J>>) returns (rs: Option<seq<Event<J>>>)
      modifies Metadata(events)
      ensures rs.None? <==> versions == []
      ensures rs.Some? ==> |rs.value| == |events|
      ensures rs.Some? ==> forall k :: 0 <= k < |events| ==>
        ComesOut(versions, events, k, old(Version(events[k])), rs.value[k])
    {
      if |versions| == 0 { return None; }
      hide ComesOut, VersionAt, MaybeUpcast;
      var done: seq<Event<J>> := [];
      NoneStamped(versions, events);
      for k := 0 to |events|
        invariant |done| == k
        invariant forall m :: m in Metadata(events) ==> m.version == VersionAt(versions, events, k, m, old(m.version))
        invariant forall i :: 0 <= i < k ==> ComesOut(versions, events, i, old(Version(events[i])), done[i])
      {
        var e := events[k];
        ghost var now := Version(e);
        assert e.metadata.Some? ==> e.metadata.value in Metadata(events);
        var r := Upcast(e);
        OneComesOut(versions, events, k, old(Version(e)), now, r);
        forall m | m in Metadata(events) ensures m.version == VersionAt(versions, events, k + 1, m, old(m.version)) {
          VersionsMove(versions, events, k, m, old(m.version));
        }
        done := done + [r];
      }
      return Some(done);
    }
  }

  lemma NoneStamped<J>(versions: seq<SchemaVersion<J>>, events: seq<Event<J>>)
    requires versions != []
    ensures forall m, was :: VersionAt(versions, events, 0, m, was) == was
  {
  }
}
