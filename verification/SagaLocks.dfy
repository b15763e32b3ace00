/**
 saga-lock-manager.ts: locks on targets, a stash of the messages that were refused
 one, and the hand-over of a lock to the saga of a stashed message when it is unlocked.
 */
module SagaLocks {
  import opened Options

  /** The code takes an empty saga id for no saga; ids are never empty. */
  type SagaId = s: string | s != "" witness "1"

  datatype Message = Message(id: string, sagaType: string, sagaId: SagaId, payload: string)
  datatype Lock = Lock(sagaType: string, sagaId: SagaId)
  datatype Stashed = Stashed(target: string, sagaType: string, sagaId: SagaId, message: Message)

  type Locks = map<string, Lock>
  type Stash = map<string, Stashed>

  datatype UnlockError = NotLocked | OwnedByOther(owner: SagaId)

  // ---------- what the operations do ----------

  /**
   Claiming, while others use the table: `others` are the tables as they leave them
   before each of its calls to the database.
   */
  function Claim(locks: Locks, others: seq<Locks>, target: string, lock: Lock): (Locks, bool)
    decreases |others|
  {
    var atInsert := Seen(locks, others, 0);
    if target !in atInsert then (atInsert[target := lock], true)
    else
      var atLookup := Seen(atInsert, others, 1);
      if target in atLookup then (atLookup, atLookup[target].sagaId == lock.sagaId)
      else Claim(atLookup, others[2..], target, lock)
  }

  function Seen(locks: Locks, others: seq<Locks>, k: nat): Locks {
    if k < |others| then others[k] else locks
  }

  ghost predicate MayBeFound(stash: Stash, target: string, found: Option<string>) {
    match found
    case Some(id) => id in stash && stash[id].target == target
    case None => forall id :: id in stash ==> stash[id].target != target
  }

  /** `found` is the stashed message that the database happens to find for the target. */
  function Release(locks: Locks, stash: Stash, sagaId: SagaId, target: string, found: Option<string>):
    Result<(Locks, Stash, Option<Message>), UnlockError>
    requires found.Some? ==> found.value in stash
  {
    if target !in locks then Err(NotLocked)
    else if locks[target].sagaId != sagaId then Err(OwnedByOther(locks[target].sagaId))
    else match found
      case None => Ok((locks - {target}, stash, None))
      case Some(id) =>
        Ok((locks[target := Lock(stash[id].sagaType, stash[id].sagaId)], stash - {id}, Some(stash[id].message)))
  }

  class SagaDatabaseLockManager {
    var locks: Locks
    var stash: Stash

    constructor ()
      ensures locks == map[] && stash == map[]
    {
      locks, stash := map[], map[];
    }

    /** Tries to insert the lock; if there is one, looks up its owner; if that is gone by then, tries again. */
    method ClaimLock(sagaType: string, sagaId: SagaId, target: string, others: seq<Locks>) returns (claimed: bool)
      modifies this`locks
      ensures (locks, claimed) == Claim(old(locks), others, target, Lock(sagaType, sagaId))
    {
      ghost var claim := Claim(locks, others, target, Lock(sagaType, sagaId));
      var k := 0;
      while true
        invariant 0 <= k <= |others|
        invariant Claim(locks, others[k..], target, Lock(sagaType, sagaId)) == claim
        decreases |others| - k
      {
        locks := Seen(locks, others[k..], 0);
        if target !in locks {
          locks := locks[target := Lock(sagaType, sagaId)];
          return true;
        }
        locks := Seen(locks, others[k..], 1);
        if target in locks {
          return locks[target].sagaId == sagaId;
        }
        assert others[k..][2..] == others[k + 2..];
        k := k + 2;
      }
    }

    /** The message id is the table's key: a message that is stashed already is refused. */
    method StashMessage(sagaType: string, sagaId: SagaId, target: string, message: Message) returns (ok: bool)
      modifies this`stash
      ensures ok == (message.id !in old(stash))
      ensures stash == if ok then old(stash)[message.id := Stashed(target, sagaType, sagaId, message)] else old(stash)
    {
      ok := message.id !in stash;
      if ok {
        stash := stash[message.id := Stashed(target, sagaType, sagaId, message)];
      }
    }

    method FindOne(target: string) returns (found: Option<string>)
      ensures MayBeFound(stash, target, found)
    {
      var ids := set id | id in stash && stash[id].target == target;
      if ids == {} {
        assert forall id :: id in stash && stash[id].target == target ==> id in ids;
        return None;
      }
      var id :| id in ids;
      return Some(id);
    }

    method Unlock(sagaId: SagaId, target: string)
      returns (r: Result<Option<Message>, UnlockError>, ghost found: Option<string>)
      modifies this
      ensures r.Ok? ==> MayBeFound(old(stash), target, found)
      ensures found.Some? ==> found.value in old(stash)
      ensures match Release(old(locks), old(stash), sagaId, target, found)
        case Ok((locks', stash', message)) => r == Ok(message) && locks == locks' && stash == stash'
        case Err(e) => r == Err(e) && locks == old(locks) && stash == old(stash)
      ensures r == Err(NotLocked) <==> target !in old(locks)
      ensures target in old(locks) ==> (r.Ok? <==> old(locks)[target].sagaId == sagaId)
      ensures target in old(locks) && !r.Ok? ==> r == Err(OwnedByOther(old(locks)[target].sagaId))
      ensures r.Ok? ==> match found
        case None => r.value == None && locks == old(locks) - {target}
        case Some(id) =>
          && r.value == Some(old(stash)[id].message) && stash == old(stash) - {id}
          && locks == old(locks)[target := Lock(old(stash)[id].sagaType, old(stash)[id].sagaId)]
    {
      if target !in locks {
        return Err(NotLocked), None;
      }
      if locks[target].sagaId != sagaId {
        return Err(OwnedByOther(locks[target].sagaId)), None;
      }
      var row := FindOne(target);
      found := row;
      if row.None? {
        locks := locks - {target};
        return Ok(None), found;
      }
      var stashed := stash[row.value];
      locks := locks[target := Lock(stashed.sagaType, stashed.sagaId)];
      stash := stash - {row.value};
      return Ok(Some(stashed.message)), found;
    }
  }

  /**
   A claim is granted exactly when the target is its saga's when it returns; of the table
   that it saw last (`k` counts the others' changes) it alters nothing but a free target.
   */
  lemma {:induction false} ClaimTellsTheOwner(locks: Locks, others: seq<Locks>, target: string, lock: Lock)
    returns (k: nat)
    ensures var (after, claimed) := Claim(locks, others, target, lock);
      && target in after && (claimed <==> after[target].sagaId == lock.sagaId)
      && k <= |others|
      && var seen := if k == 0 then locks else others[k - 1];
         if target in seen then after == seen else after == seen[target := lock]
    decreases |others|
  {
    var atInsert := Seen(locks, others, 0);
    var atLookup := Seen(atInsert, others, 1);
    if target !in atInsert {
      k := if others == [] then 0 else 1;
    } else if target in atLookup {
      k := if |others| < 2 then |others| else 2;
    } else {
      var j := ClaimTellsTheOwner(atLookup, others[2..], target, lock);
      k := j + 2;
    }
  }

  // ---------- the participants' protocol ----------

  datatype Entry = Granted(target: string, sagaId: SagaId) | Released(target: string, sagaId: SagaId)

  /** The two tables, and all that happened: locks given and taken back, messages stashed and returned. */
  datatype System = System(
    locks: Locks,
    stash: Stash,
    log: seq<Entry>,
    stashed: seq<Message>,
    returned: seq<Message>,
    reclaimsRefused: nat)

  datatype Move =
    | Handles(message: Message, target: string)
    | Unlocks(sagaId: SagaId, target: string, found: Option<string>)

  /** A message claims its target, or is stashed for it, in one step. */
  function Handled(s: System, m: Message, target: string): System {
    var (locks, claimed) := Claim(s.locks, [], target, Lock(m.sagaType, m.sagaId));
    if claimed then s.(locks := locks, log := s.log + [Granted(target, m.sagaId)])
    else if m.id in s.stash then s
    else s.(stash := s.stash[m.id := Stashed(target, m.sagaType, m.sagaId, m)], stashed := s.stashed + [m])
  }

  /** The message that comes back is handled again, and so claims the target again. */
  function Unlocked(s: System, sagaId: SagaId, target: string, found: Option<string>): System
    requires found.Some? ==> found.value in s.stash
  {
    match Release(s.locks, s.stash, sagaId, target, found)
    case Err(_) => s
    case Ok((locks, stash, None)) =>
      s.(locks := locks, stash := stash, log := s.log + [Released(target, sagaId)])
    case Ok((locks, stash, Some(m))) =>
      var (again, claimed) := Claim(locks, [], target, Lock(m.sagaType, m.sagaId));
      s.(locks := again,
         stash := stash,
         log := s.log + [Released(target, sagaId)] + if claimed then [Granted(target, m.sagaId)] else [],
         returned := s.returned + [m],
         reclaimsRefused := s.reclaimsRefused + if claimed then 0 else 1)
  }

  ghost predicate Possible(s: System, m: Move) {
    m.Unlocks? ==> MayBeFound(s.stash, m.target, m.found)
  }

  ghost function Run(moves: seq<Move>): System {
    if moves == [] then System(map[], map[], [], [], [], 0)
    else
      var s := Run(moves[..|moves| - 1]);
      var m := moves[|moves| - 1];
      if !Possible(s, m) then s
      else match m
        case Handles(message, target) => Handled(s, message, target)
        case Unlocks(sagaId, target, found) => Unlocked(s, sagaId, target, found)
  }

  /** The saga that a log leaves a target to. */
  function Holder(log: seq<Entry>, target: string): Option<SagaId> {
    if log == [] then None
    else match log[|log| - 1]
      case Granted(t, a) => if t == target then Some(a) else Holder(log[..|log| - 1], target)
      case Released(t, a) => if t == target then None else Holder(log[..|log| - 1], target)
  }

  /** Nobody is granted a target that another saga holds, and only the holder releases it. */
  ghost predicate Exclusive(log: seq<Entry>) {
    forall k :: 0 <= k < |log| ==>
      match log[k]
      case Granted(t, a) => Holder(log[..k], t) == None || Holder(log[..k], t) == Some(a)
      case Released(t, a) => Holder(log[..k], t) == Some(a)
  }

  predicate Waits(stash: Stash, m: Message) {
    m.id in stash && stash[m.id].message == m
  }

  function OwnerIn(locks: Locks, target: string): Option<SagaId> {
    if target in locks then Some(locks[target].sagaId) else None
  }

  ghost predicate StashOk(locks: Locks, stash: Stash) {
    forall id :: id in stash ==>
      && stash[id].message.id == id
      && stash[id].sagaId == stash[id].message.sagaId && stash[id].sagaType == stash[id].message.sagaType
      && stash[id].target in locks
  }

  ghost predicate Conserved(s: System) {
    forall m :: multiset(s.stashed)[m] == multiset(s.returned)[m] + if Waits(s.stash, m) then 1 else 0
  }

  ghost predicate LogOk(s: System) {
    Exclusive(s.log) && forall t :: Holder(s.log, t) == OwnerIn(s.locks, t)
  }

  ghost predicate Inv(s: System) {
    s.reclaimsRefused == 0 && StashOk(s.locks, s.stash) && Conserved(s) && LogOk(s)
  }

  lemma HolderOfMore(log: seq<Entry>, e: Entry)
    ensures forall t :: t != e.target ==> Holder(log + [e], t) == Holder(log, t)
    ensures Holder(log + [e], e.target) == if e.Granted? then Some(e.sagaId) else None
    ensures Exclusive(log + [e]) <==> (
      && Exclusive(log)
      && (Holder(log, e.target) == Some(e.sagaId) || (e.Granted? && Holder(log, e.target) == None)))
  {
    assert (log + [e])[..|log|] == log && (log + [e])[|log|] == e;
    assert forall k :: 0 <= k < |log| ==> (log + [e])[..k] == log[..k] && (log + [e])[k] == log[k];
  }

  lemma HandlingKeeps(s: System, m: Message, target: string)
    requires Inv(s)
    ensures Inv(Handled(s, m, target))
  {
    HolderOfMore(s.log, Granted(target, m.sagaId));
    hide Holder, Exclusive;
    var t := Handled(s, m, target);
    assert StashOk(t.locks, t.stash) && LogOk(t);
    hide StashOk, LogOk;
    if t.stashed != s.stashed {
      forall x ensures multiset(t.stashed)[x] == multiset(t.returned)[x] + if Waits(t.stash, x) then 1 else 0 {
        assert multiset(t.stashed) == multiset(s.stashed) + multiset{m};
      }
    }
  }

  lemma ReturningConserves(s: System, t: System, id: string)
    requires Conserved(s) && id in s.stash && s.stash[id].message.id == id
    requires forall other :: other in s.stash ==> s.stash[other].message.id == other
    requires t.stash == s.stash - {id} && t.stashed == s.stashed && t.returned == s.returned + [s.stash[id].message]
    ensures Conserved(t)
  {
    var m := s.stash[id].message;
    assert multiset(t.returned) == multiset(s.returned) + multiset{m};
    forall x ensures multiset(t.stashed)[x] == multiset(t.returned)[x] + if Waits(t.stash, x) then 1 else 0 {
      assert Waits(s.stash, x) <==> Waits(t.stash, x) || x == m;
    }
  }

  lemma HandingOverIsLogged(s: System, t: System, target: string, a: SagaId, b: Lock)
    requires LogOk(s) && OwnerIn(s.locks, target) == Some(a)
    requires t.locks == s.locks[target := b] && t.log == s.log + [Released(target, a)] + [Granted(target, b.sagaId)]
    ensures LogOk(t)
  {
    HolderOfMore(s.log, Released(target, a));
    HolderOfMore(s.log + [Released(target, a)], Granted(target, b.sagaId));
    hide Holder, Exclusive;
  }

  lemma UnlockingKeeps(s: System, sagaId: SagaId, target: string, found: Option<string>)
    requires Inv(s) && MayBeFound(s.stash, target, found)
    ensures Inv(Unlocked(s, sagaId, target, found))
  {
    var t := Unlocked(s, sagaId, target, found);
    if OwnerIn(s.locks, target) == Some(sagaId) && found.Some? {
      var row := s.stash[found.value];
      assert t.locks == s.locks[target := Lock(row.sagaType, row.sagaId)];
      assert t.log == s.log + [Released(target, sagaId)] + [Granted(target, row.sagaId)];
      HandingOverIsLogged(s, t, target, sagaId, Lock(row.sagaType, row.sagaId));
      ReturningConserves(s, t, found.value);
      hide LogOk, Conserved;
    } else {
      HolderOfMore(s.log, Released(target, sagaId));
      hide Holder, Exclusive, Conserved;
    }
  }

  lemma {:induction false} EveryRunIsOk(moves: seq<Move>)
    ensures Inv(Run(moves))
  {
    if moves != [] {
      EveryRunIsOk(moves[..|moves| - 1]);
      var s := Run(moves[..|moves| - 1]);
      match moves[|moves| - 1] {
        case Handles(message, target) => HandlingKeeps(s, message, target);
        case Unlocks(sagaId, target, found) =>
          if MayBeFound(s.stash, target, found) { UnlockingKeeps(s, sagaId, target, found); }
      }
    }
  }

  // ---------- every run ----------

  /** A target is never granted to a saga while another holds it, and the lock table names the holder. */
  lemma LocksAreExclusive(moves: seq<Move>, target: string)
    ensures var s := Run(moves);
      Exclusive(s.log) && Holder(s.log, target) == OwnerIn(s.locks, target)
  {
    EveryRunIsOk(moves);
  }

  /** Each message stashed has been returned, once, or is still stashed, and then its target is locked. */
  lemma StashedMessagesAreConserved(moves: seq<Move>, m: Message)
    ensures var s := Run(moves);
      && multiset(s.stashed)[m] == multiset(s.returned)[m] + (if Waits(s.stash, m) then 1 else 0)
      && (Waits(s.stash, m) ==> s.stash[m.id].target in s.locks)
      && s.reclaimsRefused == 0
  {
    EveryRunIsOk(moves);
    hide Run;
  }

  // ---------- draining a target ----------

  function Waiting(stash: Stash, target: string): set<string> {
    set id | id in stash && stash[id].target == target
  }

  /** The owners of the target, one after the other, unlock it; the database finds what it happens to find. */
  function Drained(s: System, target: string, found: seq<Option<string>>): System
    requires CanDrain(s, target, found)
    decreases |found|
  {
    if found == [] || target !in s.locks then s
    else Drained(Unlocked(s, s.locks[target].sagaId, target, found[0]), target, found[1..])
  }

  predicate CanDrain(s: System, target: string, found: seq<Option<string>>)
    decreases |found|
  {
    found != [] && target in s.locks ==>
      && (found[0].Some? ==> found[0].value in Waiting(s.stash, target))
      && (found[0].None? ==> Waiting(s.stash, target) == {})
      && CanDrain(Unlocked(s, s.locks[target].sagaId, target, found[0]), target, found[1..])
  }

  lemma FoundInWaiting(stash: Stash, target: string, found: Option<string>)
    requires found.Some? ==> found.value in Waiting(stash, target)
    requires found.None? ==> Waiting(stash, target) == {}
    ensures MayBeFound(stash, target, found)
  {
    assert forall id :: id in Waiting(stash, target) <==> id in stash && stash[id].target == target;
  }

  /** One more unlock than there are messages waiting for a target frees it, and no other target is touched. */
  lemma {:induction false} UnlocksDrain(s: System, target: string, found: seq<Option<string>>)
    requires Inv(s) && target in s.locks && CanDrain(s, target, found)
    requires |found| == |Waiting(s.stash, target)| + 1
    ensures var t := Drained(s, target, found);
      && t.locks == s.locks - {target}
      && t.stash == s.stash - Waiting(s.stash, target)
      && |t.returned| == |s.returned| + |Waiting(s.stash, target)|
    decreases |found|
  {
    var owner := s.locks[target].sagaId;
    var next := Unlocked(s, owner, target, found[0]);
    FoundInWaiting(s.stash, target, found[0]);
    UnlockingKeeps(s, owner, target, found[0]);
    match found[0] {
      case None =>
        assert s.stash - Waiting(s.stash, target) == s.stash;
      case Some(id) =>
        assert Waiting(next.stash, target) == Waiting(s.stash, target) - {id};
        UnlocksDrain(next, target, found[1..]);
        assert next.locks - {target} == s.locks - {target};
        assert next.stash - Waiting(next.stash, target) == s.stash - Waiting(s.stash, target);
    }
  }
}
