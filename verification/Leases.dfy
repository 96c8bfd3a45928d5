/**
 Fenced TTL leases: the contract of internal/state/lease.go as its stores run it,
 first on one row, then as a store of rows.
 */
module Leases {
  import opened Wrappers
  import opened Text

  /** Times and durations are in nanoseconds. */
  const SECOND: int := 1_000_000_000

  datatype Lease = Lease(holder: string, fence: nat, expiresAt: int)

  // ---------- one row ----------

  /** Absent, expired or tombstoned. */
  predicate Acquirable(row: Option<Lease>, now: int) {
    row.None? || row.value.expiresAt < now
  }

  function AcquiredLease(row: Option<Lease>, holder: string, ttl: int, now: int): Lease {
    Lease(holder, if row.None? then 1 else row.value.fence + 1, now + ttl)
  }

  predicate Holds(row: Option<Lease>, holder: string, fence: nat) {
    row.Some? && row.value.holder == holder && row.value.fence == fence
  }

  function RenewedRow(row: Option<Lease>, holder: string, fence: nat, ttl: int, now: int): Option<Lease> {
    if Holds(row, holder, fence) then Some(row.value.(expiresAt := now + ttl)) else row
  }

  /** Release keeps the row and its fence, so that the next acquisition is a takeover. */
  function ReleasedRow(row: Option<Lease>, holder: string, fence: nat, now: int): Option<Lease> {
    if Holds(row, holder, fence) then Some(row.value.(expiresAt := now - SECOND)) else row
  }

  function Fence(row: Option<Lease>): nat {
    if row.None? then 0 else row.value.fence
  }

  // ---------- any sequence of operations on one row ----------

  datatype Operation =
    | Acquire(holder: string, now: int)
    | Renew(holder: string, fence: nat, now: int)
    | Release(holder: string, fence: nat, now: int)

  function Perform(row: Option<Lease>, op: Operation, ttl: int): Option<Lease> {
    match op
    case Acquire(holder, now) =>
      if Acquirable(row, now) then Some(AcquiredLease(row, holder, ttl, now)) else row
    case Renew(holder, fence, now) => RenewedRow(row, holder, fence, ttl, now)
    case Release(holder, fence, now) => ReleasedRow(row, holder, fence, now)
  }

  function PerformAll(row: Option<Lease>, ops: seq<Operation>, ttl: int): Option<Lease>
    decreases |ops|
  {
    if ops == [] then row else PerformAll(Perform(row, ops[0], ttl), ops[1..], ttl)
  }

  predicate TakesOver(row: Option<Lease>, op: Operation) {
    op.Acquire? && Acquirable(row, op.now)
  }

  /**
   Fences never go back, and a fence that was once passed is dead: whatever happens
   afterwards, no holder can renew or release with it again.
   */
  lemma {:induction false} PassedFenceIsDead(row: Option<Lease>, ops: seq<Operation>, ttl: int, holder: string, fence: nat)
    requires fence < Fence(row)
    ensures Fence(PerformAll(row, ops, ttl)) >= Fence(row)
    ensures !Holds(PerformAll(row, ops, ttl), holder, fence)
    decreases |ops|
  {
    if ops != [] {
      PassedFenceIsDead(Perform(row, ops[0], ttl), ops[1..], ttl, holder, fence);
    }
  }

  /** A takeover ends every earlier incarnation for good, its own holder's included. */
  lemma TakeoverEndsEarlierFences(row: Option<Lease>, takeover: Operation, later: seq<Operation>, ttl: int, holder: string, fence: nat)
    requires TakesOver(row, takeover) && fence <= Fence(row)
    ensures !Holds(PerformAll(row, [takeover] + later, ttl), holder, fence)
  {
    assert ([takeover] + later)[1..] == later;
    PassedFenceIsDead(Perform(row, takeover, ttl), later, ttl, holder, fence);
  }

  // ---------- how long a lease lasts ----------

  /** An operation of somebody else, made in the given span of time. */
  predicate Foreign(op: Operation, holder: string, fence: nat, from: int, until: int) {
    && from <= op.now <= until
    && (op.Renew? || op.Release? ==> op.holder != holder || op.fence != fence)
  }

  /** While the row is not expired, nobody else can touch it. */
  lemma {:induction false} ForeignersLeaveIt(row: Option<Lease>, ops: seq<Operation>, ttl: int, from: int)
    requires row.Some? && forall i | 0 <= i < |ops| :: Foreign(ops[i], row.value.holder, row.value.fence, from, row.value.expiresAt)
    ensures PerformAll(row, ops, ttl) == row
    decreases |ops|
  {
    if ops != [] {
      assert Foreign(ops[0], row.value.holder, row.value.fence, from, row.value.expiresAt);
      ForeignersLeaveIt(row, ops[1..], ttl, from);
    }
  }

  /**
   An acquisition of an absent or expired row, fresh or a takeover, makes its holder the
   owner under the next fence for the whole ttl: whatever other holders and fences do until
   then, the row is still held and nobody can acquire it; and afterwards everybody can.
   */
  lemma AcquisitionLasts(row: Option<Lease>, holder: string, now: int, ops: seq<Operation>, ttl: int, t: int)
    requires ttl >= 0 && (row.Some? ==> row.value.expiresAt < now)
    requires var fence := if row.Some? then row.value.fence + 1 else 1;
             forall i | 0 <= i < |ops| :: Foreign(ops[i], holder, fence, now, now + ttl)
    ensures var row' := PerformAll(row, [Acquire(holder, now)] + ops, ttl);
            && row'.Some? && row'.value.holder == holder && row'.value.fence == (if row.Some? then row.value.fence + 1 else 1)
            && (Acquirable(row', t) <==> t > now + ttl)
  {
    var row1 := Perform(row, Acquire(holder, now), ttl);
    assert ([Acquire(holder, now)] + ops)[1..] == ops;
    ForeignersLeaveIt(row1, ops, ttl, now);
  }

  /** A renewal by holder and fence does the same, from its own time on, even if the row had expired. */
  lemma RenewalLasts(row: Option<Lease>, holder: string, fence: nat, now: int, ops: seq<Operation>, ttl: int, t: int)
    requires ttl >= 0 && row.Some? && row.value.holder == holder && row.value.fence == fence
    requires forall i | 0 <= i < |ops| :: Foreign(ops[i], holder, fence, now, now + ttl)
    ensures var row' := PerformAll(row, [Renew(holder, fence, now)] + ops, ttl);
            && row'.Some? && row'.value.holder == holder && row'.value.fence == fence
            && (Acquirable(row', t) <==> t > now + ttl)
  {
    var row1 := Perform(row, Renew(holder, fence, now), ttl);
    assert ([Renew(holder, fence, now)] + ops)[1..] == ops;
    ForeignersLeaveIt(row1, ops, ttl, now);
  }

  /**
   A release by holder and fence hands over at once: from its own time on anybody can
   acquire the row, and does so under the next fence.
   */
  lemma ReleaseHandsOver(row: Option<Lease>, holder: string, fence: nat, now: int, next: string, t: int, ttl: int)
    requires row.Some? && row.value.holder == holder && row.value.fence == fence && t >= now && ttl >= 0
    ensures var row' := PerformAll(row, [Release(holder, fence, now), Acquire(next, t)], ttl);
            row' == Some(Lease(next, fence + 1, t + ttl))
  {
    var ops := [Release(holder, fence, now), Acquire(next, t)];
    var row1 := Perform(row, ops[0], ttl);
    assert ops[1..] == [Acquire(next, t)];
    assert PerformAll(row1, ops[1..], ttl) == PerformAll(Perform(row1, ops[1], ttl), ops[1..][1..], ttl);
  }

  // ---------- the store ----------

  datatype LeaseError = NameRequired | HolderRequired | TtlNotPositive

  function Key(name: string, holder: string): Result<(string, string), LeaseError> {
    if TrimSpace(name) == "" then Err(NameRequired)
    else if TrimSpace(holder) == "" then Err(HolderRequired)
    else Ok((TrimSpace(name), TrimSpace(holder)))
  }

  /**
   Names and holders are the same lease and the same owner whatever spaces stand around
   them; blank ones are refused, the name before the holder.
   */
  lemma KeyIgnoresSpaces(b: string, name: string, a: string, b': string, holder: string, a': string)
    requires AllSpace(b) && AllSpace(a) && AllSpace(b') && AllSpace(a')
    requires name != "" ==> !IsSpace(name[0]) && !IsSpace(name[|name| - 1])
    requires holder != "" ==> !IsSpace(holder[0]) && !IsSpace(holder[|holder| - 1])
    ensures Key(b + name + a, b' + holder + a')
            == if name == "" then Err(NameRequired) else if holder == "" then Err(HolderRequired) else Ok((name, holder))
  {
    TrimAround(b, name, a);
    TrimAround(b', holder, a');
  }

  class LeaseStore {
    var rows: map<string, Lease>

    constructor ()
      ensures rows == map[]
    {
      rows := map[];
    }

    function Row(name: string): Option<Lease>
      reads this
    {
      if name in rows then Some(rows[name]) else None
    }

    /** The lease, and whether the caller acquired it. */
    method AcquireLease(name: string, holder: string, ttl: int, now: int)
      returns (r: Result<(Lease, bool), LeaseError>)
      modifies this
      ensures Key(name, holder).Err? ==> r == Err(Key(name, holder).error) && rows == old(rows)
      ensures Key(name, holder).Ok? && ttl <= 0 ==> r == Err(TtlNotPositive) && rows == old(rows)
      ensures Key(name, holder).Ok? && ttl > 0 ==>
                var (n, h) := Key(name, holder).value;
                if old(n !in rows || rows[n].expiresAt < now) then
                  var lease := Lease(h, if old(n in rows) then old(rows[n].fence) + 1 else 1, now + ttl);
                  r == Ok((lease, true)) && rows == old(rows)[n := lease]
                else
                  r == Ok((old(Row(n)).value, false)) && rows == old(rows)
    {
      var key := Key(name, holder);
      if key.Err? {
        return Err(key.error);
      }
      if ttl <= 0 {
        return Err(TtlNotPositive);
      }
      var (n, h) := key.value;
      var exists' := n in rows;
      if exists' && rows[n].expiresAt >= now {
        return Ok((rows[n], false));
      }
      var fence := 1;
      if exists' {
        fence := rows[n].fence + 1;
      }
      var lease := Lease(h, fence, now + ttl);
      rows := rows[n := lease];
      return Ok((lease, true));
    }

    /** The current lease, absent when there is none, and whether it was extended. */
    method RenewLease(name: string, holder: string, fence: nat, ttl: int, now: int)
      returns (r: Result<(Option<Lease>, bool), LeaseError>)
      modifies this
      ensures Key(name, holder).Err? ==> r == Err(Key(name, holder).error) && rows == old(rows)
      ensures Key(name, holder).Ok? && ttl <= 0 ==> r == Err(TtlNotPositive) && rows == old(rows)
      ensures Key(name, holder).Ok? && ttl > 0 ==>
                var (n, h) := Key(name, holder).value;
                && Row(n) == (if Holds(old(Row(n)), h, fence) then Some(Lease(h, fence, now + ttl)) else old(Row(n)))
                && r == Ok((Row(n), Holds(old(Row(n)), h, fence)))
                && forall other | other != n :: Row(other) == old(Row(other))
    {
      var key := Key(name, holder);
      if key.Err? {
        return Err(key.error);
      }
      if ttl <= 0 {
        return Err(TtlNotPositive);
      }
      var (n, h) := key.value;
      if n !in rows {
        return Ok((None, false));
      }
      var current := rows[n];
      if current.holder != h || current.fence != fence {
        return Ok((Some(current), false));
      }
      current := current.(expiresAt := now + ttl);
      rows := rows[n := current];
      return Ok((Some(current), true));
    }

    method ReleaseLease(name: string, holder: string, fence: nat, now: int)
      returns (err: Option<LeaseError>)
      modifies this
      ensures Key(name, holder).Err? ==> err == Some(Key(name, holder).error) && rows == old(rows)
      ensures Key(name, holder).Ok? ==>
                var (n, h) := Key(name, holder).value;
                && err.None?
                && Row(n) == (if Holds(old(Row(n)), h, fence) then Some(Lease(h, fence, now - SECOND)) else old(Row(n)))
                && forall other | other != n :: Row(other) == old(Row(other))
    {
      var key := Key(name, holder);
      if key.Err? {
        return Some(key.error);
      }
      var (n, h) := key.value;
      if n in rows && rows[n].holder == h && rows[n].fence == fence {
        rows := rows[n := rows[n].(expiresAt := now - SECOND)];
      }
      return None;
    }
  }
}
