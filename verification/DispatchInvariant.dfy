/**
 What every dispatch transaction keeps: the pairing of outbox rows with their
 permits, and the quiescence of revoked scopes.
 */
module DispatchInvariant {
  import opened Base
  import opened Dispatch

  ghost predicate Waiting(r: OutboxRow) {
    r.state == Pending || r.state == Leased
  }

  ghost predicate Submitted(r: OutboxRow) {
    r.state == SubmissionStarted || IsOutcome(r.state)
  }

  /** A permit agrees with its row, and the two states belong together. */
  ghost predicate Paired(q: PermitRow, outbox: map<Id, OutboxRow>, clock: Time) {
    && q.outbox in outbox
    && var r := outbox[q.outbox];
    && q.installation == r.installation && q.generation == r.generation
    && q.link == r.link && q.scope == r.scope
    && (q.state == Active ==> r.state == Leased)
    && (q.state == Started ==> r.state == SubmissionStarted)
    && (q.state == Finished ==> Submitted(r))
    && (q.state == Finished && r.state == SubmissionStarted ==> q.deadline <= clock)
  }

  ghost predicate AllPaired(permits: map<Id, PermitRow>, outbox: map<Id, OutboxRow>, clock: Time) {
    forall p :: p in permits ==> Paired(permits[p], outbox, clock)
  }

  /** No other permit of the same row escaped expiry. */
  ghost predicate Sole(permits: map<Id, PermitRow>, o: Id, p: Id) {
    forall q :: q in permits && permits[q].outbox == o && permits[q].state != Expired ==> q == p
  }

  /** Of all permits a row was ever given, at most one has not expired unstarted. */
  ghost predicate OnePermitPerRow(permits: map<Id, PermitRow>) {
    forall p :: p in permits && permits[p].state != Expired ==> Sole(permits, permits[p].outbox, p)
  }

  /** A waiting row belongs to live scopes; a link column references a link of the same installation. */
  ghost predicate RowFits(r: OutboxRow, installations: map<Id, Installation>, links: map<Id, Link>) {
    && r.attempts <= CLAIM_LIMIT
    && r.installation in installations
    && (r.link.Some? ==>
          && r.scope == r.link
          && r.link.value in links && links[r.link.value].installation == r.installation)
    && (Waiting(r) ==>
          && installations[r.installation].state == Live
          && r.link == r.scope
          && (r.link.Some? ==> links[r.link.value].state == Live))
  }

  ghost predicate AllFit(outbox: map<Id, OutboxRow>, installations: map<Id, Installation>, links: map<Id, Link>) {
    forall o :: o in outbox ==> RowFits(outbox[o], installations, links)
  }

  ghost predicate Begun(permits: map<Id, PermitRow>, o: Id, p: Id) {
    p in permits && permits[p].outbox == o && (permits[p].state == Started || permits[p].state == Finished)
  }

  ghost predicate SubmissionsHavePermits(outbox: map<Id, OutboxRow>, permits: map<Id, PermitRow>) {
    forall o :: o in outbox && outbox[o].state == SubmissionStarted ==> exists p :: Begun(permits, o, p)
  }

  /** A submission inside its deadline holds up the commit of both its scopes. */
  ghost predicate HoldsScopes(q: PermitRow, installations: map<Id, Installation>, links: map<Id, Link>, clock: Time) {
    q.state == Started && q.deadline > clock ==>
      && q.installation in installations
      && installations[q.installation].state != Inactive
      && (q.scope.Some? ==> q.scope.value in links && links[q.scope.value].installation == q.installation)
  }

  ghost predicate AllHold(permits: map<Id, PermitRow>, installations: map<Id, Installation>, links: map<Id, Link>, clock: Time) {
    forall p :: p in permits ==> HoldsScopes(permits[p], installations, links, clock)
  }

  ghost predicate Inv(db: Db) {
    && AllPaired(db.permits, db.outbox, db.clock)
    && OnePermitPerRow(db.permits)
    && AllFit(db.outbox, db.installations, db.links)
    && SubmissionsHavePermits(db.outbox, db.permits)
    && AllHold(db.permits, db.installations, db.links, db.clock)
  }

  /* ---- how rows may evolve ------------------------------------------- */

  /** Permits only move forward, and a submission outside `own` is finished only past its deadline. */
  ghost predicate PermitForward(before: PermitRow, after: PermitRow, mayFinish: bool, clock: Time) {
    && after.outbox == before.outbox
    && after.installation == before.installation
    && after.deadline == before.deadline
    && (before.state == Started ==> after.state == Started || after.state == Finished)
    && (after.state == Finished ==> before.state == Finished || mayFinish || before.deadline <= clock)
    && (before.state == Finished ==> after.state == Finished)
    && (before.state == Expired ==> after.state == Expired)
  }

  ghost predicate Forward(before: Db, after: Db, own: set<Id>) {
    && before.clock <= after.clock
    && (forall p :: p in before.permits ==>
          p in after.permits && PermitForward(before.permits[p], after.permits[p], p in own, after.clock))
    && (forall x :: x in before.installations ==>
          && x in after.installations
          && (before.installations[x].state != Live ==> after.installations[x].state != Live)
          && (before.installations[x].state == Inactive ==> after.installations[x].state == Inactive))
  }

  /* ---- two conjuncts that depend on few facts -------------------------- */

  lemma OneKept(before: map<Id, PermitRow>, after: map<Id, PermitRow>)
    requires OnePermitPerRow(before)
    requires forall p :: p in after ==> p in before && after[p].outbox == before[p].outbox
    requires forall p :: p in after && after[p].state != Expired ==> before[p].state != Expired
    ensures OnePermitPerRow(after)
  {
    forall p | p in after && after[p].state != Expired
      ensures Sole(after, after[p].outbox, p)
    {
      assert Sole(before, before[p].outbox, p);
    }
  }

  lemma BegunKept(outbox: map<Id, OutboxRow>, before: map<Id, PermitRow>,
                  outbox': map<Id, OutboxRow>, after: map<Id, PermitRow>)
    requires SubmissionsHavePermits(outbox, before)
    requires forall o :: o in outbox' && outbox'[o].state == SubmissionStarted ==>
      o in outbox && outbox[o].state == SubmissionStarted
    requires forall p :: p in before && (before[p].state == Started || before[p].state == Finished) ==>
      Begun(after, before[p].outbox, p)
    ensures SubmissionsHavePermits(outbox', after)
  {
    forall o | o in outbox' && outbox'[o].state == SubmissionStarted
      ensures exists p :: Begun(after, o, p)
    {
      var p :| Begun(before, o, p);
      assert Begun(after, before[p].outbox, p);
    }
  }

  /* ---- claims -------------------------------------------------------- */

  lemma CreateAlertKeeps(db: Db, o: Id, x: Id, link: Option<Id>)
    requires Inv(db) && CreateAlert(db, o, x, link).Some?
    ensures Inv(CreateAlert(db, o, x, link).value)
    ensures Forward(db, CreateAlert(db, o, x, link).value, {})
  {
    var after := CreateAlert(db, o, x, link).value;
    BegunKept(db.outbox, db.permits, after.outbox, after.permits);
    forall k | k in after.permits
      ensures Paired(after.permits[k], after.outbox, after.clock)
    {
      assert Paired(db.permits[k], db.outbox, db.clock);
    }
    forall k | k in after.outbox
      ensures RowFits(after.outbox[k], after.installations, after.links)
    {
      if k != o { assert RowFits(db.outbox[k], db.installations, db.links); }
    }
  }

  lemma PendingRowIsFree(db: Db, o: Id, p: Id)
    requires AllPaired(db.permits, db.outbox, db.clock) && o in db.outbox && db.outbox[o].state == Pending
    requires p in db.permits && db.permits[p].outbox == o
    ensures db.permits[p].state == Expired
  {
    assert Paired(db.permits[p], db.outbox, db.clock);
  }

  /** The new active permit `q` of the leased row `r`. */
  ghost predicate Leases(r0: OutboxRow, r: OutboxRow, q: PermitRow, o: Id) {
    && q.state == Active && q.outbox == o
    && r.state == Leased && r.attempts <= CLAIM_LIMIT
    && q.installation == r.installation == r0.installation
    && q.generation == r.generation == r0.generation
    && q.link == r.link == r0.link
    && q.scope == r.scope == r.link
  }

  lemma LeaseKeepsPairs(db: Db, o: Id, r: OutboxRow, p: Id, q: PermitRow, t: Time)
    requires Inv(db) && o in db.outbox && db.outbox[o].state == Pending
    requires p !in db.permits && t >= db.clock && Leases(db.outbox[o], r, q, o)
    ensures AllPaired(db.permits[p := q], db.outbox[o := r], t)
    ensures AllHold(db.permits[p := q], db.installations, db.links, t)
  {
    var permits', outbox' := db.permits[p := q], db.outbox[o := r];
    forall k | k in permits'
      ensures Paired(permits'[k], outbox', t)
      ensures HoldsScopes(permits'[k], db.installations, db.links, t)
    {
      if k != p {
        assert Paired(db.permits[k], db.outbox, db.clock);
        assert HoldsScopes(db.permits[k], db.installations, db.links, db.clock);
        if db.permits[k].outbox == o { PendingRowIsFree(db, o, k); }
      }
    }
  }

  lemma LeaseKeepsOne(db: Db, o: Id, p: Id, q: PermitRow)
    requires Inv(db) && o in db.outbox && db.outbox[o].state == Pending
    requires p !in db.permits && q.outbox == o && q.state == Active
    ensures OnePermitPerRow(db.permits[p := q])
  {
    var after := db.permits[p := q];
    forall k | k in after && after[k].state != Expired
      ensures Sole(after, after[k].outbox, k)
    {
      if k != p { assert Sole(db.permits, db.permits[k].outbox, k); }
      forall j | j in after && after[j].outbox == after[k].outbox && after[j].state != Expired
        ensures j == k
      {
        if j != p && db.permits[j].outbox == o { PendingRowIsFree(db, o, j); }
        if k != p && db.permits[k].outbox == o { PendingRowIsFree(db, o, k); }
      }
    }
  }

  lemma LeaseKeepsFits(db: Db, o: Id, r: OutboxRow)
    requires AllFit(db.outbox, db.installations, db.links)
    requires o in db.outbox && RowFits(r, db.installations, db.links)
    ensures AllFit(db.outbox[o := r], db.installations, db.links)
  {
    var outbox' := db.outbox[o := r];
    forall k | k in outbox'
      ensures RowFits(outbox'[k], db.installations, db.links)
    {
      assert RowFits(db.outbox[k], db.installations, db.links);
    }
  }

  lemma LeaseForward(db: Db, p: Id, q: PermitRow, outbox: map<Id, OutboxRow>, t: Time)
    requires db.clock <= t && p !in db.permits
    ensures Forward(db, db.(clock := t, permits := db.permits[p := q], outbox := outbox), {})
  {
  }

  lemma LeaseKeeps(db: Db, o: Id, r: OutboxRow, p: Id, q: PermitRow, t: Time)
    requires Inv(db) && o in db.outbox && db.outbox[o].state == Pending
    requires p !in db.permits && t >= db.clock && Leases(db.outbox[o], r, q, o)
    ensures Inv(db.(clock := t, permits := db.permits[p := q], outbox := db.outbox[o := r]))
  {
    LeaseKeepsPairs(db, o, r, p, q, t);
    LeaseKeepsOne(db, o, p, q);
    BegunKept(db.outbox, db.permits, db.outbox[o := r], db.permits[p := q]);
    assert RowFits(db.outbox[o], db.installations, db.links);
    LeaseKeepsFits(db, o, r);
  }

  lemma ClaimKeeps(db: Db, o: Id, p: Id, owner: Id, g: nat, t1: Time, t2: Time, t3: Time)
    requires Inv(db) && ClaimNext(db, o, p, owner, g, t1, t2, t3).Some?
    ensures Inv(ClaimNext(db, o, p, owner, g, t1, t2, t3).value)
    ensures Forward(db, ClaimNext(db, o, p, owner, g, t1, t2, t3).value, {})
  {
    var after := ClaimNext(db, o, p, owner, g, t1, t2, t3).value;
    assert RowFits(db.outbox[o], db.installations, db.links);
    LeaseKeeps(db, o, after.outbox[o], p, after.permits[p], t3);
    LeaseForward(db, p, after.permits[p], after.outbox, t3);
  }

  lemma AcquireKeeps(db: Db, x: Id, link: Option<Id>, o: Id, p: Id, t1: Time, t2: Time)
    requires Inv(db) && AcquirePermit(db, x, link, o, p, t1, t2).Some?
    ensures Inv(AcquirePermit(db, x, link, o, p, t1, t2).value)
    ensures Forward(db, AcquirePermit(db, x, link, o, p, t1, t2).value, {})
  {
    var after := AcquirePermit(db, x, link, o, p, t1, t2).value;
    assert RowFits(db.outbox[o], db.installations, db.links);
    LeaseKeeps(db, o, after.outbox[o], p, after.permits[p], t2);
    LeaseForward(db, p, after.permits[p], after.outbox, t2);
  }

  /* ---- one permit and its row change together ------------------------ */

  /** What mark, finish and abandon make of a permit that has not expired and of its row. */
  ghost predicate Moves(db: Db, p: Id, q: PermitRow, r: OutboxRow, t: Time) {
    && p in db.permits && db.permits[p].state != Expired
    && var q0 := db.permits[p];
    && q0.outbox in db.outbox
    && var r0 := db.outbox[q0.outbox];
    && q == q0.(state := q.state)
    && r == r0.(state := r.state, leaseExpiresAt := r.leaseExpiresAt)
    && Paired(q, db.outbox[q0.outbox := r], t)
    && HoldsScopes(q, db.installations, db.links, t)
    && RowFits(r, db.installations, db.links)
    && (r.state == SubmissionStarted ==> q.state == Started)
  }

  lemma MoveKeepsPairs(db: Db, p: Id, q: PermitRow, r: OutboxRow, t: Time)
    requires Inv(db) && t >= db.clock && Moves(db, p, q, r, t)
    ensures AllPaired(db.permits[p := q], db.outbox[q.outbox := r], t)
    ensures AllHold(db.permits[p := q], db.installations, db.links, t)
  {
    assert Sole(db.permits, q.outbox, p);
    var permits', outbox' := db.permits[p := q], db.outbox[q.outbox := r];
    forall k | k in permits'
      ensures Paired(permits'[k], outbox', t)
      ensures HoldsScopes(permits'[k], db.installations, db.links, t)
    {
      if k != p {
        assert Paired(db.permits[k], db.outbox, db.clock);
        assert HoldsScopes(db.permits[k], db.installations, db.links, db.clock);
      }
    }
  }

  lemma MoveKeepsSubmissions(db: Db, p: Id, q: PermitRow, r: OutboxRow, t: Time)
    requires Inv(db) && Moves(db, p, q, r, t)
    ensures SubmissionsHavePermits(db.outbox[q.outbox := r], db.permits[p := q])
  {
    var outbox', permits' := db.outbox[q.outbox := r], db.permits[p := q];
    forall k | k in outbox' && outbox'[k].state == SubmissionStarted
      ensures exists j :: Begun(permits', k, j)
    {
      if k == q.outbox {
        assert Begun(permits', k, p);
      } else {
        var j :| Begun(db.permits, k, j);
        assert Begun(permits', k, j);
      }
    }
  }

  lemma MoveKeeps(db: Db, p: Id, q: PermitRow, r: OutboxRow, t: Time)
    requires Inv(db) && t >= db.clock && Moves(db, p, q, r, t)
    ensures Inv(db.(clock := t, permits := db.permits[p := q], outbox := db.outbox[q.outbox := r]))
  {
    var after := db.(clock := t, permits := db.permits[p := q], outbox := db.outbox[q.outbox := r]);
    MoveKeepsPairs(db, p, q, r, t);
    OneKept(db.permits, after.permits);
    MoveKeepsSubmissions(db, p, q, r, t);
    forall k | k in after.outbox
      ensures RowFits(after.outbox[k], after.installations, after.links)
    {
      assert RowFits(db.outbox[k], db.installations, db.links);
    }
  }

  lemma MoveForward(db: Db, p: Id, q: PermitRow, outbox: map<Id, OutboxRow>, t: Time, own: set<Id>)
    requires db.clock <= t && p in db.permits
    requires PermitForward(db.permits[p], q, p in own, t)
    ensures Forward(db, db.(clock := t, permits := db.permits[p := q], outbox := outbox), own)
  {
  }

  lemma MarkKeeps(db: Db, p: Id, t1: Time, t2: Time)
    requires Inv(db) && MarkStarted(db, p, t1, t2).Some?
    ensures Inv(MarkStarted(db, p, t1, t2).value)
    ensures Forward(db, MarkStarted(db, p, t1, t2).value, {})
  {
    var q := db.permits[p];
    var q', r' := q.(state := Started), db.outbox[q.outbox].(state := SubmissionStarted);
    assert Moves(db, p, q', r', t2) by {
      assert Paired(q, db.outbox, db.clock);
      assert RowFits(db.outbox[q.outbox], db.installations, db.links);
    }
    MoveKeeps(db, p, q', r', t2);
    MoveForward(db, p, q', db.outbox[q.outbox := r'], t2, {});
  }

  lemma FinishKeeps(db: Db, p: Id, outcome: OutboxState, keepsLease: bool, t: Time)
    requires Inv(db) && Finish(db, p, outcome, keepsLease, t).Some?
    ensures Inv(Finish(db, p, outcome, keepsLease, t).value)
    ensures Forward(db, Finish(db, p, outcome, keepsLease, t).value, {p})
  {
    var q, r := db.permits[p], db.outbox[db.permits[p].outbox];
    var q', r' := q.(state := Finished), r.(state := outcome, leaseExpiresAt := if keepsLease then r.leaseExpiresAt else None);
    assert Moves(db, p, q', r', t) by {
      assert Paired(q, db.outbox, db.clock);
      assert RowFits(db.outbox[q.outbox], db.installations, db.links);
    }
    MoveKeeps(db, p, q', r', t);
    MoveForward(db, p, q', db.outbox[q.outbox := r'], t, {p});
  }

  lemma AbandonKeeps(db: Db, p: Id, t: Time)
    requires Inv(db) && Abandon(db, p, t).Some?
    ensures Inv(Abandon(db, p, t).value)
    ensures Forward(db, Abandon(db, p, t).value, {})
  {
    if p !in db.permits || db.permits[p].state != Active {
      SweepKeeps(db, db.permits, t);
      SweepForward(db, db.permits, t);
    } else {
      var q := db.permits[p];
      var q', r' := q.(state := Expired), Returned(db.outbox[q.outbox]);
      assert Moves(db, p, q', r', t) by {
        assert Paired(q, db.outbox, db.clock);
        assert RowFits(db.outbox[q.outbox], db.installations, db.links);
      }
      MoveKeeps(db, p, q', r', t);
      MoveForward(db, p, q', db.outbox[q.outbox := r'], t, {});
    }
  }

  /* ---- recovery, statement by statement ------------------------------ */

  /** Every permit is either left alone or moved by an overdue deadline or lease. */
  ghost predicate Sweeps(before: map<Id, PermitRow>, after: map<Id, PermitRow>, t: Time) {
    && after.Keys == before.Keys
    && forall p :: p in before ==>
         || after[p] == before[p]
         || (before[p].state == Started && before[p].deadline <= t && after[p] == before[p].(state := Finished))
         || (before[p].state == Active && after[p] == before[p].(state := Expired))
  }

  lemma SweepPairs(before: map<Id, PermitRow>, after: map<Id, PermitRow>, outbox: map<Id, OutboxRow>, clock: Time, t: Time)
    requires AllPaired(before, outbox, clock) && clock <= t && Sweeps(before, after, t)
    ensures AllPaired(after, outbox, t)
  {
    forall k | k in after
      ensures Paired(after[k], outbox, t)
    {
      assert Paired(before[k], outbox, clock);
    }
  }

  lemma SweepHolds(before: map<Id, PermitRow>, after: map<Id, PermitRow>,
                   installations: map<Id, Installation>, links: map<Id, Link>, clock: Time, t: Time)
    requires AllHold(before, installations, links, clock) && clock <= t && Sweeps(before, after, t)
    ensures AllHold(after, installations, links, t)
  {
    forall k | k in after
      ensures HoldsScopes(after[k], installations, links, t)
    {
      assert HoldsScopes(before[k], installations, links, clock);
    }
  }

  lemma SweepKeeps(db: Db, permits: map<Id, PermitRow>, t: Time)
    requires Inv(db) && db.clock <= t && Sweeps(db.permits, permits, t)
    ensures Inv(db.(clock := t, permits := permits))
  {
    SweepPairs(db.permits, permits, db.outbox, db.clock, t);
    SweepHolds(db.permits, permits, db.installations, db.links, db.clock, t);
    OneKept(db.permits, permits);
    BegunKept(db.outbox, db.permits, db.outbox, permits);
  }

  lemma SweepForward(db: Db, permits: map<Id, PermitRow>, t: Time)
    requires db.clock <= t && Sweeps(db.permits, permits, t)
    ensures Forward(db, db.(clock := t, permits := permits), {})
  {
  }

  /** Rows whose submission is over, or whose lease no live permit backs, are settled. */
  ghost predicate Settles(outbox: map<Id, OutboxRow>, outbox': map<Id, OutboxRow>, permits: map<Id, PermitRow>, t: Time) {
    && outbox'.Keys == outbox.Keys
    && forall o :: o in outbox ==>
         || outbox'[o] == outbox[o]
         || (&& outbox[o].state == SubmissionStarted
             && HasFinishedPermit(permits, o, t)
             && outbox'[o] == outbox[o].(state := OutcomeUnknown, leaseExpiresAt := None))
         || (&& outbox[o].state == Leased
             && !HasPermit(permits, o, {Active, Started})
             && outbox'[o] == Returned(outbox[o]))
  }

  lemma SettlePairs(permits: map<Id, PermitRow>, outbox: map<Id, OutboxRow>, outbox': map<Id, OutboxRow>, clock: Time, t: Time)
    requires AllPaired(permits, outbox, clock) && OnePermitPerRow(permits) && clock <= t
    requires Settles(outbox, outbox', permits, t)
    ensures AllPaired(permits, outbox', t)
  {
    forall k | k in permits
      ensures Paired(permits[k], outbox', t)
    {
      var q := permits[k];
      assert Paired(q, outbox, clock);
      if q.state == Active {
        assert HasPermit(permits, q.outbox, {Active, Started});
      } else if q.state == Started {
        assert Sole(permits, q.outbox, k);
      }
    }
  }

  lemma SettleFits(outbox: map<Id, OutboxRow>, outbox': map<Id, OutboxRow>, permits: map<Id, PermitRow>, t: Time,
                   installations: map<Id, Installation>, links: map<Id, Link>)
    requires AllFit(outbox, installations, links) && Settles(outbox, outbox', permits, t)
    ensures AllFit(outbox', installations, links)
  {
    forall k | k in outbox'
      ensures RowFits(outbox'[k], installations, links)
    {
      assert RowFits(outbox[k], installations, links);
    }
  }

  lemma SettleKeeps(db: Db, outbox: map<Id, OutboxRow>, t: Time)
    requires Inv(db) && db.clock <= t && Settles(db.outbox, outbox, db.permits, t)
    ensures Inv(db.(clock := t, outbox := outbox))
  {
    SettlePairs(db.permits, db.outbox, outbox, db.clock, t);
    SweepHolds(db.permits, db.permits, db.installations, db.links, db.clock, t);
    BegunKept(db.outbox, db.permits, outbox, db.permits);
    SettleFits(db.outbox, outbox, db.permits, t, db.installations, db.links);
  }

  lemma FinishOverdueSweeps(permits: map<Id, PermitRow>, batch: set<Id>, t: Time)
    ensures Sweeps(permits, FinishOverdue(permits, batch, t), t)
  {
  }

  lemma ExpireOverdueSweeps(permits: map<Id, PermitRow>, batch: set<Id>, t: Time)
    ensures Sweeps(permits, ExpireOverdue(permits, batch, t), t)
  {
  }

  lemma SettleUnknownSettles(outbox: map<Id, OutboxRow>, permits: map<Id, PermitRow>, t: Time)
    ensures Settles(outbox, SettleUnknown(outbox, permits, t), permits, t)
  {
  }

  lemma ReturnLeasesSettles(outbox: map<Id, OutboxRow>, permits: map<Id, PermitRow>, t: Time)
    ensures Settles(outbox, ReturnLeases(outbox, permits, t), permits, t)
  {
  }

  lemma RecoverKeeps(db: Db, finishing: set<Id>, expiring: set<Id>, t1: Time, t2: Time, t3: Time, t4: Time)
    requires Inv(db) && Recover(db, finishing, expiring, t1, t2, t3, t4).Some?
    ensures Inv(Recover(db, finishing, expiring, t1, t2, t3, t4).value)
  {
    var permits1 := FinishOverdue(db.permits, finishing, t1);
    var a := db.(clock := t1, permits := permits1);
    assert Inv(a) by { FinishOverdueSweeps(db.permits, finishing, t1); SweepKeeps(db, permits1, t1); }
    var outbox1 := SettleUnknown(db.outbox, permits1, t2);
    var b := a.(clock := t2, outbox := outbox1);
    assert Inv(b) by { SettleUnknownSettles(db.outbox, permits1, t2); SettleKeeps(a, outbox1, t2); }
    var permits2 := ExpireOverdue(permits1, expiring, t3);
    var c := b.(clock := t3, permits := permits2);
    assert Inv(c) by { ExpireOverdueSweeps(permits1, expiring, t3); SweepKeeps(b, permits2, t3); }
    var outbox2 := ReturnLeases(outbox1, permits2, t4);
    var d := c.(clock := t4, outbox := outbox2);
    assert Inv(d) by { ReturnLeasesSettles(outbox1, permits2, t4); SettleKeeps(c, outbox2, t4); }
    assert Recover(db, finishing, expiring, t1, t2, t3, t4) == Some(d);
  }

  lemma RecoverForward(db: Db, finishing: set<Id>, expiring: set<Id>, t1: Time, t2: Time, t3: Time, t4: Time)
    requires Recover(db, finishing, expiring, t1, t2, t3, t4).Some?
    ensures Forward(db, Recover(db, finishing, expiring, t1, t2, t3, t4).value, {})
  {
    var permits1 := FinishOverdue(db.permits, finishing, t1);
    var permits2 := ExpireOverdue(permits1, expiring, t3);
    forall p | p in db.permits
      ensures PermitForward(db.permits[p], permits2[p], false, t4)
    {
    }
  }

  /* ---- fences -------------------------------------------------------- */

  function FencedOutbox(outbox: map<Id, OutboxRow>, permits: map<Id, PermitRow>, target: Scope, force: bool, t: Time): map<Id, OutboxRow> {
    map o | o in outbox :: FenceRow(target, permits, force, t, o, outbox[o])
  }

  function FencedPermits(permits: map<Id, PermitRow>, target: Scope, force: bool, t: Time): map<Id, PermitRow> {
    map p | p in permits :: FencePermit(target, force, t, permits[p])
  }

  /**
   A fence keeps the pairing although its two statements read the clock apart:
   a deadline between the reads leaves the row started and its permit finished.
   */
  lemma FencePairs(outbox: map<Id, OutboxRow>, permits: map<Id, PermitRow>, clock: Time,
                   target: Scope, force: bool, t1: Time, t2: Time)
    requires AllPaired(permits, outbox, clock) && OnePermitPerRow(permits) && clock <= t1 <= t2
    ensures AllPaired(FencedPermits(permits, target, force, t2), FencedOutbox(outbox, permits, target, force, t1), t2)
  {
    var permits', outbox' := FencedPermits(permits, target, force, t2), FencedOutbox(outbox, permits, target, force, t1);
    forall k | k in permits'
      ensures Paired(permits'[k], outbox', t2)
    {
      FencePairsOne(outbox, permits, clock, target, force, t1, t2, k);
    }
  }

  lemma FencePairsOne(outbox: map<Id, OutboxRow>, permits: map<Id, PermitRow>, clock: Time,
                      target: Scope, force: bool, t1: Time, t2: Time, k: Id)
    requires AllPaired(permits, outbox, clock) && OnePermitPerRow(permits) && clock <= t1 <= t2 && k in permits
    ensures Paired(FencePermit(target, force, t2, permits[k]), FencedOutbox(outbox, permits, target, force, t1), t2)
  {
    var q := permits[k];
    assert Paired(q, outbox, clock);
    if q.state != Expired {
      assert Sole(permits, q.outbox, k);
    }
  }

  lemma FenceOne(permits: map<Id, PermitRow>, target: Scope, force: bool, t: Time)
    requires OnePermitPerRow(permits)
    ensures OnePermitPerRow(FencedPermits(permits, target, force, t))
  {
    OneKept(permits, FencedPermits(permits, target, force, t));
  }

  lemma FenceBegun(outbox: map<Id, OutboxRow>, permits: map<Id, PermitRow>, target: Scope, force: bool, t1: Time, t2: Time)
    requires SubmissionsHavePermits(outbox, permits)
    ensures SubmissionsHavePermits(FencedOutbox(outbox, permits, target, force, t1), FencedPermits(permits, target, force, t2))
  {
    BegunKept(outbox, permits, FencedOutbox(outbox, permits, target, force, t1), FencedPermits(permits, target, force, t2));
  }

  /** Only the fenced scope, or links below a fenced installation, may change state. */
  ghost predicate StopsOnly(target: Scope, installations: map<Id, Installation>, links: map<Id, Link>,
                            installations': map<Id, Installation>, links': map<Id, Link>) {
    && (forall x :: x in installations ==>
          && x in installations'
          && (installations'[x] == installations[x] || target == OfInstallation(x))
          && (installations[x].state != Inactive ==> installations'[x].state != Inactive))
    && (forall l :: l in links ==>
          && l in links'
          && links'[l].installation == links[l].installation
          && (links'[l] == links[l] || target == OfLink(l) || target == OfInstallation(links[l].installation)))
  }

  lemma FenceFits(outbox: map<Id, OutboxRow>, permits: map<Id, PermitRow>, target: Scope, force: bool, t: Time,
                  installations: map<Id, Installation>, links: map<Id, Link>,
                  installations': map<Id, Installation>, links': map<Id, Link>)
    requires AllFit(outbox, installations, links)
    requires StopsOnly(target, installations, links, installations', links')
    ensures AllFit(FencedOutbox(outbox, permits, target, force, t), installations', links')
  {
    var outbox' := FencedOutbox(outbox, permits, target, force, t);
    forall o | o in outbox'
      ensures RowFits(outbox'[o], installations', links')
    {
      assert RowFits(outbox[o], installations, links);
    }
  }

  lemma FenceHolds(permits: map<Id, PermitRow>, outbox: map<Id, OutboxRow>, clock: Time, target: Scope, force: bool, t: Time,
                   installations: map<Id, Installation>, links: map<Id, Link>,
                   installations': map<Id, Installation>, links': map<Id, Link>)
    requires AllHold(permits, installations, links, clock) && clock <= t
    requires AllPaired(permits, outbox, clock) && AllFit(outbox, installations, links)
    requires StopsOnly(target, installations, links, installations', links')
    ensures AllHold(FencedPermits(permits, target, force, t), installations', links', t)
  {
    var permits' := FencedPermits(permits, target, force, t);
    forall k | k in permits'
      ensures HoldsScopes(permits'[k], installations', links', t)
    {
      var q := permits[k];
      assert HoldsScopes(q, installations, links, clock);
      assert Paired(q, outbox, clock);
      assert RowFits(outbox[q.outbox], installations, links);
    }
  }

  /** The state change of a drain together with its fence. */
  lemma DrainKeeps(db: Db, stopped: Db, target: Scope, force: bool, t1: Time, t2: Time)
    requires Inv(db) && db.clock <= t1 <= t2
    requires stopped.outbox == db.outbox && stopped.permits == db.permits
    requires StopsOnly(target, db.installations, db.links, stopped.installations, stopped.links)
    ensures Inv(Fence(stopped, target, force, t1, t2))
  {
    var permits', outbox' := FencedPermits(db.permits, target, force, t2), FencedOutbox(db.outbox, db.permits, target, force, t1);
    FencePairs(db.outbox, db.permits, db.clock, target, force, t1, t2);
    FenceOne(db.permits, target, force, t2);
    FenceBegun(db.outbox, db.permits, target, force, t1, t2);
    FenceFits(db.outbox, db.permits, target, force, t1, db.installations, db.links, stopped.installations, stopped.links);
    FenceHolds(db.permits, db.outbox, db.clock, target, force, t2, db.installations, db.links, stopped.installations, stopped.links);
    var after := Fence(stopped, target, force, t1, t2);
    assert after.permits == permits' && after.outbox == outbox';
  }

  lemma FenceForward(permits: map<Id, PermitRow>, target: Scope, t: Time, p: Id)
    requires p in permits
    ensures PermitForward(permits[p], FencePermit(target, false, t, permits[p]), false, t)
  {
  }
}
