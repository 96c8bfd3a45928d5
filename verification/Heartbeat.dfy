/**
 durableRunLeaseHeartbeat: one held run lease, its background renewer and the
 proofs of ownership that a run asks for. Every call to the store is one method
 call; `now` is the store's clock and `reachable` says whether the store answers.
 */
module Heartbeat {
  import opened Wrappers
  import opened Leases

  datatype Renewal = Renewed | Lost | Cancelled

  class DurableRunLease {
    const leases: LeaseStore
    const name: string
    const holder: string
    const ttl: int
    const fence: nat
    var renewing: bool
    var lossErr: bool
    var cancelled: bool

    predicate Valid()
    {
      Key(name, holder) == Ok((name, holder)) && ttl > 0
    }

    constructor (leases: LeaseStore, name: string, holder: string, ttl: int, fence: nat)
      requires Key(name, holder) == Ok((name, holder)) && ttl > 0
      ensures Valid() && renewing && !lossErr && !cancelled
      ensures this.leases == leases && this.name == name && this.holder == holder && this.ttl == ttl && this.fence == fence
    {
      this.leases, this.name, this.holder, this.ttl, this.fence := leases, name, holder, ttl, fence;
      renewing, lossErr, cancelled := true, false, false;
    }

    /** This heartbeat's holder and fence are the current ones. */
    predicate Owns()
      reads leases
    {
      Holds(leases.Row(name), holder, fence)
    }

    method Renew(now: int, reachable: bool, ctxDone: bool) returns (r: Renewal)
      requires Valid()
      modifies leases
      ensures r == if reachable && old(Owns()) then Renewed else if !reachable && ctxDone then Cancelled else Lost
      ensures leases.Row(name) == if reachable then RenewedRow(old(leases.Row(name)), holder, fence, ttl, now) else old(leases.Row(name))
      ensures forall other | other != name :: leases.Row(other) == old(leases.Row(other))
    {
      if !reachable {
        return if ctxDone then Cancelled else Lost;
      }
      var outcome := leases.RenewLease(name, holder, fence, ttl, now);
      if outcome.value.1 {
        return Renewed;
      }
      return Lost;
    }

    /** Only the first loss counts; it cancels the execution. */
    method MarkLost()
      modifies this
      ensures lossErr && renewing == old(renewing)
      ensures cancelled == (old(cancelled) || !old(lossErr))
    {
      if !lossErr {
        lossErr := true;
        cancelled := true;
      }
    }

    /** One tick of the background renewer. */
    method Tick(now: int, reachable: bool)
      requires Valid() && renewing && this !in {leases as object}
      modifies this, leases
      ensures old(Owns()) && reachable ==> renewing && lossErr == old(lossErr) && cancelled == old(cancelled)
      ensures !(old(Owns()) && reachable) ==> !renewing && lossErr
      ensures leases.Row(name) == if reachable then RenewedRow(old(leases.Row(name)), holder, fence, ttl, now) else old(leases.Row(name))
    {
      var r := Renew(now, reachable, false);
      if r != Renewed {
        MarkLost();
        renewing := false;
      }
    }

    /**
     Proves that holder and fence are still current. Any doubt fails closed, and a
     loss stays a loss.
     */
    method Confirm(now: int, reachable: bool, ctxDone: bool) returns (proved: bool)
      requires Valid()
      modifies this, leases
      ensures proved <==> !old(lossErr) && reachable && old(Owns())
      ensures proved ==> Owns() && leases.Row(name).value.expiresAt == now + ttl
      ensures old(lossErr) ==> lossErr && leases.Row(name) == old(leases.Row(name))
      ensures lossErr == (old(lossErr) || !(proved || (!reachable && ctxDone)))
      ensures renewing == old(renewing)
    {
      if lossErr {
        return false;
      }
      var r := Renew(now, reachable, ctxDone);
      if r == Lost {
        MarkLost();
      }
      return r == Renewed;
    }

    method StopRenewing()
      modifies this
      ensures !renewing && lossErr == old(lossErr) && cancelled == old(cancelled)
    {
      renewing := false;
    }

    /** The proof of ownership that no late heartbeat can race with. */
    method StopAndConfirm(now: int, reachable: bool, ctxDone: bool) returns (proved: bool)
      requires Valid()
      modifies this, leases
      ensures !renewing
      ensures proved <==> !old(lossErr) && reachable && old(Owns())
      ensures proved ==> Owns() && leases.Row(name).value.expiresAt == now + ttl
      ensures lossErr == (old(lossErr) || !(proved || (!reachable && ctxDone)))
    {
      StopRenewing();
      proved := Confirm(now, reachable, ctxDone);
    }

    /** Tombstones the lease when it is still ours; a taken-over lease is left alone. */
    method Release(now: int, reachable: bool)
      requires Valid()
      modifies this, leases
      ensures !renewing && cancelled && lossErr == old(lossErr)
      ensures leases.Row(name) == if reachable then ReleasedRow(old(leases.Row(name)), holder, fence, now) else old(leases.Row(name))
      ensures forall other | other != name :: leases.Row(other) == old(leases.Row(other))
    {
      StopRenewing();
      cancelled := true;
      if reachable {
        var _ := leases.ReleaseLease(name, holder, fence, now);
      }
    }
  }
}
