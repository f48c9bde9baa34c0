/**
 The store's dispatch transactions as methods that update the tables statement by
 statement. Each is proved against its transaction function, whose invariants and runs
 are proved in DispatchInvariant, DispatchRevocation and DispatchTheorems.
 */
module NotificationStore {
  import opened Base
  import opened Dispatch

  datatype Claim = Claim(permit: Id, outbox: Id, deadline: Time)

  class Store {
    var clock: Time
    var gates: Gates
    var egress: Option<EgressLease>
    var installations: map<Id, Installation>
    var links: map<Id, Link>
    var tokens: map<Id, bool>
    var operations: map<Id, Operation>
    var outbox: map<Id, OutboxRow>
    var permits: map<Id, PermitRow>

    function View(): Db
      reads this
    {
      Db(clock, gates, egress, installations, links, tokens, operations, outbox, permits)
    }

    /** Returns no claim exactly when the guards fail or no row is claimable. */
    method ClaimNextDispatch(p: Id, owner: Id, egressGeneration: nat, t1: Time, t2: Time, t3: Time) returns (r: Option<Claim>)
      requires clock <= t1 <= t2 <= t3 && p !in permits
      modifies this
      ensures r.None? ==> View() == old(View())
      ensures r.None? <==>
        !(&& DeliveryEnabled(old(View())) && EgressHeld(old(View()), owner, egressGeneration, t1)
          && exists o :: Claimable(old(View()), o))
      ensures r.Some? ==>
        && r.value.permit == p && r.value.deadline == t2 + PROVIDER_WINDOW
        && Claimable(old(View()), r.value.outbox)
        && ClaimNext(old(View()), r.value.outbox, p, owner, egressGeneration, t1, t2, t3) == Some(View())
    {
      if !DeliveryEnabled(View()) || !EgressHeld(View(), owner, egressGeneration, t1) {
        return None;
      }
      var claimable := set o | o in outbox && Claimable(View(), o);
      if claimable == {} {
        assert forall o :: Claimable(View(), o) ==> o in claimable;
        return None;
      }
      var o :| o in claimable;
      var row := outbox[o];
      permits := permits[p := PermitRow(
        o, row.installation, row.link, row.link, row.linkGeneration, row.generation, Active,
        t2 + PERMIT_LIFETIME, t2 + PROVIDER_WINDOW)];
      outbox := outbox[o := row.(
        state := Leased, leaseExpiresAt := Some(t3 + PERMIT_LIFETIME), attempts := row.attempts + 1)];
      clock := t3;
      r := Some(Claim(p, o, t2 + PROVIDER_WINDOW));
    }

    method MarkProviderSubmissionStarted(p: Id, t1: Time, t2: Time) returns (ok: bool)
      requires clock <= t1 <= t2
      modifies this
      ensures ok == MarkStarted(old(View()), p, t1, t2).Some?
      ensures View() == if ok then MarkStarted(old(View()), p, t1, t2).value else old(View())
    {
      ok := false;
      if p !in permits || permits[p].state != Active { return; }
      var q := permits[p];
      if !InstallationLive(View(), q.installation, q.generation) || !TokenLive(View(), q.installation) { return; }
      if !ScopeLive(View(), q.scope, q.installation, q.linkGeneration) { return; }
      if q.outbox !in outbox || outbox[q.outbox].installation != q.installation { return; }
      var row := outbox[q.outbox];
      if row.state != Leased || row.scope != q.scope || row.generation != q.generation { return; }
      if q.expiresAt <= t1 || q.deadline <= t2 { return; }
      permits := permits[p := q.(state := Started)];
      outbox := outbox[q.outbox := row.(state := SubmissionStarted)];
      clock := t2;
      ok := true;
    }

    /** Commits exactly on a started permit of a started row; then that row holds the outcome and nothing else changes. */
    method FinishDispatchPermit(p: Id, outcome: OutboxState, keepsLease: bool, t: Time) returns (ok: bool)
      requires clock <= t && IsOutcome(outcome)
      modifies this
      ensures ok <==>
        && p in old(permits) && old(permits)[p].state == Started
        && old(permits)[p].outbox in old(outbox) && old(outbox)[old(permits)[p].outbox].state == SubmissionStarted
      ensures !ok ==> View() == old(View())
      ensures ok ==>
        && permits == old(permits)[p := old(permits)[p].(state := Finished)]
        && var o := old(permits)[p].outbox;
        && o in outbox && outbox[o].state == outcome
        && outbox[o].leaseExpiresAt == (if keepsLease then old(outbox)[o].leaseExpiresAt else None)
        && outbox == old(outbox)[o := old(outbox)[o].(state := outcome, leaseExpiresAt := outbox[o].leaseExpiresAt)]
        && View() == old(View()).(clock := t, permits := permits, outbox := outbox)
      ensures ok == Finish(old(View()), p, outcome, keepsLease, t).Some?
      ensures ok ==> View() == Finish(old(View()), p, outcome, keepsLease, t).value
    {
      ok := false;
      if p !in permits || permits[p].state != Started { return; }
      var q := permits[p];
      if q.outbox !in outbox || outbox[q.outbox].state != SubmissionStarted { return; }
      permits := permits[p := q.(state := Finished)];
      var row := outbox[q.outbox];
      outbox := outbox[q.outbox := row.(
        state := outcome, leaseExpiresAt := if keepsLease then row.leaseExpiresAt else None)];
      clock := t;
      ok := true;
    }

    method AbandonUnstartedDispatch(p: Id, t: Time)
      requires clock <= t
      modifies this
      ensures Some(View()) == Abandon(old(View()), p, t)
    {
      if p in permits && permits[p].state == Active {
        var q := permits[p];
        permits := permits[p := q.(state := Expired)];
        if q.outbox in outbox && outbox[q.outbox].state == Leased {
          outbox := outbox[q.outbox := Returned(outbox[q.outbox])];
        }
      }
      clock := t;
    }

    method RecoverExpiredDispatches(finishing: set<Id>, expiring: set<Id>, t1: Time, t2: Time, t3: Time, t4: Time) returns (ok: bool)
      requires clock <= t1 <= t2 <= t3 <= t4
      modifies this
      ensures ok == DeliveryEnabled(old(View()))
      ensures View() == if ok then Recover(old(View()), finishing, expiring, t1, t2, t3, t4).value else old(View())
    {
      ok := DeliveryEnabled(View());
      if !ok { return; }
      permits := FinishOverdue(permits, finishing, t1);
      outbox := SettleUnknown(outbox, permits, t2);
      permits := ExpireOverdue(permits, expiring, t3);
      outbox := ReturnLeases(outbox, permits, t4);
      clock := t4;
    }

    /** The two statements of a fence; the second reads the permits the first one saw. */
    method FenceDispatchWork(target: Scope, force: bool, t1: Time, t2: Time)
      modifies this
      ensures View() == Fence(old(View()), target, force, t1, t2)
    {
      outbox := map o | o in outbox :: FenceRow(target, permits, force, t1, o, outbox[o]);
      permits := map p | p in permits :: FencePermit(target, force, t2, permits[p]);
      clock := t2;
    }

    method StartInstallationDrain(x: Id, operation: Id, t1: Time, t2: Time) returns (ok: bool)
      requires clock <= t1 <= t2
      modifies this
      ensures ok == DrainInstallation(old(View()), x, {}, operation, t1, t2).Some?
      ensures View() == if ok then DrainInstallation(old(View()), x, {}, operation, t1, t2).value else old(View())
    {
      ok := && gates.ready && gates.mutations
            && x in installations && installations[x].state == Live && operation !in operations;
      if !ok { return; }
      ghost var before := links;
      installations := installations[x := installations[x].(state := Draining)];
      operations := operations[operation := Operation(OfInstallation(x), false)];
      FenceDispatchWork(OfInstallation(x), false, t1, t2);
      assert links == map l | l in before :: before[l];
    }

    method CommitInstallationRevocation(operation: Id, t1: Time, t2: Time, t3: Time) returns (ok: bool)
      requires clock <= t1 <= t2 <= t3
      modifies this
      ensures ok == CommitInstallation(old(View()), operation, t1, t2, t3).Some?
      ensures View() == if ok then CommitInstallation(old(View()), operation, t1, t2, t3).value else old(View())
    {
      ok := false;
      if operation !in operations || !operations[operation].target.OfInstallation? { return; }
      var x := operations[operation].target.installation;
      if operations[operation].committed {
        clock := t3;
        ok := true;
        return;
      }
      if x !in installations || installations[x].state != Draining { return; }
      var fenced := Fence(View(), OfInstallation(x), false, t1, t2);
      if InFlight(fenced.permits, OfInstallation(x), t3) { return; }
      FenceDispatchWork(OfInstallation(x), false, t1, t2);
      var gone := LinksOf(View(), x);
      tokens := map y | y in tokens && y != x :: tokens[y];
      links, outbox, permits := DropLinks(View(), gone).links, DropLinks(View(), gone).outbox, DropLinks(View(), gone).permits;
      installations := installations[x := Installation(Inactive, installations[x].generation + 1)];
      operations := operations[operation := Operation(OfInstallation(x), true)];
      clock := t3;
      ok := true;
    }
  }
}
