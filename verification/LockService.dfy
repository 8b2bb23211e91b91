/**
 The key-value lock table (backend/lock_service.py). The unique index on active
 keys is modelled by the table being a map; time is an integer clock.
 */
module LockService {
  import opened Options

  const DEFAULT_TTL_SECONDS := 1800

  datatype Lock = Lock(owner: string, acquiredAt: int, expiresAt: Option<int>)

  type Table = map<string, Lock>

  // ---------------------------------------------------------------- specification

  predicate Expired(lock: Lock, now: int) {
    lock.expiresAt.Some? && lock.expiresAt.value < now
  }

  /** Nothing stands in the way of an insert: no row, or one that has expired. */
  predicate Acquirable(rows: Table, key: string, now: int) {
    key !in rows || Expired(rows[key], now)
  }

  function Acquired(rows: Table, key: string, owner: string, ttl: int, now: int): Table {
    if Acquirable(rows, key, now) then rows[key := Lock(owner, now, Some(now + ttl))] else rows
  }

  function Released(rows: Table, key: string, owner: Option<string>): Table {
    if key in rows && (owner.None? || rows[key].owner == owner.value) then rows - {key} else rows
  }

  predicate Locked(rows: Table, key: string, now: int) {
    key in rows && (rows[key].expiresAt.None? || rows[key].expiresAt.value > now)
  }

  function Cleaned(rows: Table, now: int): Table {
    map k | k in rows && !Expired(rows[k], now) :: rows[k]
  }

  // ---------------------------------------------------------------- the code

  class Service {
    var rows: Table

    constructor ()
      ensures rows == map[]
    {
      rows := map[];
    }

    /** Evict the key if it has expired, then try the insert. */
    method Acquire(key: string, owner: string, ttl: int, now: int) returns (granted: bool)
      modifies this
      ensures granted <==> Acquirable(old(rows), key, now)
      ensures rows == Acquired(old(rows), key, owner, ttl, now)
    {
      if key in rows && rows[key].expiresAt.Some? && rows[key].expiresAt.value < now {
        rows := rows - {key};
      }
      if key in rows {
        return false;
      }
      rows := rows[key := Lock(owner, now, Some(now + ttl))];
      return true;
    }

    method Release(key: string, owner: Option<string>)
      modifies this
      ensures rows == Released(old(rows), key, owner)
    {
      if key in rows {
        if owner.None? || rows[key].owner == owner.value {
          rows := rows - {key};
        }
      }
    }

    method IsLocked(key: string, now: int) returns (locked: bool)
      ensures locked <==> Locked(rows, key, now)
    {
      locked := key in rows && (rows[key].expiresAt.None? || rows[key].expiresAt.value > now);
    }

    method CleanupExpired(now: int) returns (removed: nat)
      modifies this
      ensures rows == Cleaned(old(rows), now)
      ensures removed == |old(rows)| - |rows|
    {
      var expired := set k | k in rows && Expired(rows[k], now);
      removed := |expired|;
      KeysWithout(rows, expired);
      rows := rows - expired;
    }
  }

  lemma {:induction false} KeysWithout(rows: Table, gone: set<string>)
    requires gone <= rows.Keys
    ensures |rows - gone| == |rows| - |gone|
  {
    assert (rows - gone).Keys == rows.Keys - gone;
    assert |rows - gone| == |(rows - gone).Keys| && |rows| == |rows.Keys|;
  }

  // ---------------------------------------------------------------- properties

  /**
   Being free to acquire and being locked are opposites except at the very
   instant of expiry, when the lock neither holds nor can be taken.
   */
  lemma {:induction false} ExpiryInstant(rows: Table, key: string, now: int)
    ensures !(Locked(rows, key, now) && Acquirable(rows, key, now))
    ensures !Locked(rows, key, now) && !Acquirable(rows, key, now)
            <==> key in rows && rows[key].expiresAt == Some(now)
  {
  }

  datatype Op =
    | AcquireOp(key: string, owner: string, ttl: int, now: int)
    | ReleaseOp(key: string, holder: Option<string>)
    | CleanupOp(now: int)

  function Apply(rows: Table, op: Op): Table {
    match op
    case AcquireOp(key, owner, ttl, now) => Acquired(rows, key, owner, ttl, now)
    case ReleaseOp(key, owner) => Released(rows, key, owner)
    case CleanupOp(now) => Cleaned(rows, now)
  }

  /**
   An operation, row by row. An acquire writes a row of its key unless one is in
   force; a release takes its key's row away, if no holder is named or the one who
   holds it; a clean-up takes away every row whose expiry has passed.
   */
  lemma {:induction false} OperationReadsOff(rows: Table, op: Op, k: string)
    ensures var after, there := Apply(rows, op), k in rows;
            var past := (now: int) => there && rows[k].expiresAt != None && rows[k].expiresAt.value < now;
            match op
            case AcquireOp(key, owner, ttl, now) =>
              if k == key && (!there || past(now)) then k in after && after[k] == Lock(owner, now, Some(now + ttl))
              else (k in after <==> there) && (there ==> after[k] == rows[k])
            case ReleaseOp(key, holder) =>
              if there && !(k == key && (holder == None || holder == Some(rows[k].owner)))
              then k in after && after[k] == rows[k]
              else k !in after
            case CleanupOp(now) =>
              if there && !past(now) then k in after && after[k] == rows[k] else k !in after
  {
  }

  /** The table before operation `n`. */
  function Before(rows: Table, ops: seq<Op>, n: nat): Table
    requires n <= |ops|
  {
    if n == 0 then rows else Apply(Before(rows, ops, n - 1), ops[n - 1])
  }

  predicate Grants(rows: Table, ops: seq<Op>, n: nat, key: string)
    requires n < |ops|
  {
    ops[n].AcquireOp? && ops[n].key == key && Acquirable(Before(rows, ops, n), key, ops[n].now)
  }

  /** The operation gives up this lock: its holder or anyone releases it, or it has expired by then. */
  predicate Frees(op: Op, key: string, lock: Lock) {
    match op
    case AcquireOp(k, _, _, now) => k == key && Expired(lock, now)
    case ReleaseOp(k, owner) => k == key && (owner.None? || owner.value == lock.owner)
    case CleanupOp(now) => Expired(lock, now)
  }

  lemma {:induction false} HeldUntilFreed(rows: Table, ops: seq<Op>, i: nat, j: nat, key: string, lock: Lock)
    requires i <= j <= |ops|
    requires key in Before(rows, ops, i) && Before(rows, ops, i)[key] == lock
    requires forall m :: i <= m < j ==> !Frees(ops[m], key, lock)
    ensures key in Before(rows, ops, j) && Before(rows, ops, j)[key] == lock
    decreases j - i
  {
    if i < j {
      HeldUntilFreed(rows, ops, i, j - 1, key, lock);
    }
  }

  /**
   Mutual exclusion: between two successful acquires of one key, the first lock
   was released by its holder or unconditionally, or it had expired.
   */
  lemma {:induction false} TwoGrantsAreSeparated(rows: Table, ops: seq<Op>, i: nat, j: nat, key: string)
          returns (m: nat)
    requires i < j < |ops| && Grants(rows, ops, i, key) && Grants(rows, ops, j, key)
    ensures i < m <= j && Frees(ops[m], key, Lock(ops[i].owner, ops[i].now, Some(ops[i].now + ops[i].ttl)))
  {
    var lock := Lock(ops[i].owner, ops[i].now, Some(ops[i].now + ops[i].ttl));
    if forall n :: i < n <= j ==> !Frees(ops[n], key, lock) {
      HeldUntilFreed(rows, ops, i + 1, j, key, lock);
      assert false;
    }
    m :| i < m <= j && Frees(ops[m], key, lock);
  }
}
