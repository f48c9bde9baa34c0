/** Drains and commits keep the invariant, and a commit leaves its scope quiet. */
module DispatchRevocation {
  import opened Base
  import opened Dispatch
  import opened DispatchInvariant

  /* ---- drains -------------------------------------------------------- */

  lemma DrainInstallationKeeps(db: Db, x: Id, alsoLinks: set<Id>, operation: Id, t1: Time, t2: Time)
    requires Inv(db) && DrainInstallation(db, x, alsoLinks, operation, t1, t2).Some?
    ensures Inv(DrainInstallation(db, x, alsoLinks, operation, t1, t2).value)
    ensures Forward(db, DrainInstallation(db, x, alsoLinks, operation, t1, t2).value, {})
  {
    var stopped := db.(
      installations := db.installations[x := db.installations[x].(state := Draining)],
      links := map l | l in db.links ::
        if l in alsoLinks && db.links[l].installation == x && db.links[l].state == Live
        then db.links[l].(state := Draining) else db.links[l],
      operations := db.operations[operation := Operation(OfInstallation(x), false)]);
    DrainKeeps(db, stopped, OfInstallation(x), false, t1, t2);
    FenceIsForward(db, stopped, OfInstallation(x), t1, t2);
  }

  lemma DrainLinkKeeps(db: Db, x: Id, l: Id, operation: Id, t1: Time, t2: Time)
    requires Inv(db) && DrainLink(db, x, l, operation, t1, t2).Some?
    ensures Inv(DrainLink(db, x, l, operation, t1, t2).value)
    ensures Forward(db, DrainLink(db, x, l, operation, t1, t2).value, {})
  {
    var stopped := db.(
      links := db.links[l := db.links[l].(state := Draining)],
      operations := db.operations[operation := Operation(OfLink(l), false)]);
    DrainKeeps(db, stopped, OfLink(l), false, t1, t2);
    FenceIsForward(db, stopped, OfLink(l), t1, t2);
  }

  lemma FenceIsForward(db: Db, stopped: Db, target: Scope, t1: Time, t2: Time)
    requires db.clock <= t2 && stopped.permits == db.permits
    requires forall x :: x in db.installations ==>
      && x in stopped.installations
      && (db.installations[x].state != Live ==> stopped.installations[x] == db.installations[x])
    ensures Forward(db, Fence(stopped, target, false, t1, t2), {})
  {
    forall p | p in db.permits
      ensures PermitForward(db.permits[p], FencePermit(target, false, t2, db.permits[p]), false, t2)
    {
      FenceForward(db.permits, target, t2, p);
    }
  }

  /* ---- dropping link rows -------------------------------------------- */

  function DropRowLinks(outbox: map<Id, OutboxRow>, gone: set<Id>): map<Id, OutboxRow> {
    map o | o in outbox ::
      if outbox[o].link.Some? && outbox[o].link.value in gone then outbox[o].(link := None) else outbox[o]
  }

  function DropPermitLinks(permits: map<Id, PermitRow>, gone: set<Id>): map<Id, PermitRow> {
    map p | p in permits ::
      if permits[p].link.Some? && permits[p].link.value in gone then permits[p].(link := None) else permits[p]
  }

  function Without(links: map<Id, Link>, gone: set<Id>): map<Id, Link> {
    map l | l in links && l !in gone :: links[l]
  }

  /** No row that still waits refers to a dropped link. */
  ghost predicate Unawaited(outbox: map<Id, OutboxRow>, gone: set<Id>) {
    forall o :: o in outbox && Waiting(outbox[o]) && outbox[o].link.Some? ==> outbox[o].link.value !in gone
  }

  /** No submission whose deadline is ahead belongs to a dropped link. */
  ghost predicate Landed(permits: map<Id, PermitRow>, gone: set<Id>, t: Time) {
    forall p ::
      p in permits && permits[p].state == Started && permits[p].deadline > t && permits[p].scope.Some? ==>
        permits[p].scope.value !in gone
  }

  lemma DropPairs(permits: map<Id, PermitRow>, outbox: map<Id, OutboxRow>, gone: set<Id>, clock: Time, t: Time)
    requires AllPaired(permits, outbox, clock) && clock <= t
    ensures AllPaired(DropPermitLinks(permits, gone), DropRowLinks(outbox, gone), t)
  {
    var permits', outbox' := DropPermitLinks(permits, gone), DropRowLinks(outbox, gone);
    forall k | k in permits'
      ensures Paired(permits'[k], outbox', t)
    {
      assert Paired(permits[k], outbox, clock);
    }
  }

  lemma DropBegun(permits: map<Id, PermitRow>, outbox: map<Id, OutboxRow>, gone: set<Id>)
    requires OnePermitPerRow(permits) && SubmissionsHavePermits(outbox, permits)
    ensures OnePermitPerRow(DropPermitLinks(permits, gone))
    ensures SubmissionsHavePermits(DropRowLinks(outbox, gone), DropPermitLinks(permits, gone))
  {
    OneKept(permits, DropPermitLinks(permits, gone));
    BegunKept(outbox, permits, DropRowLinks(outbox, gone), DropPermitLinks(permits, gone));
  }

  lemma DropFits(outbox: map<Id, OutboxRow>, installations: map<Id, Installation>, links: map<Id, Link>, gone: set<Id>)
    requires AllFit(outbox, installations, links)
    requires Unawaited(outbox, gone)
    ensures AllFit(DropRowLinks(outbox, gone), installations, Without(links, gone))
  {
    var outbox' := DropRowLinks(outbox, gone);
    forall o | o in outbox'
      ensures RowFits(outbox'[o], installations, Without(links, gone))
    {
      assert RowFits(outbox[o], installations, links);
    }
  }

  lemma DropHolds(permits: map<Id, PermitRow>, installations: map<Id, Installation>, links: map<Id, Link>,
                  gone: set<Id>, clock: Time, t: Time)
    requires AllHold(permits, installations, links, clock) && clock <= t
    requires Landed(permits, gone, t)
    ensures AllHold(DropPermitLinks(permits, gone), installations, Without(links, gone), t)
  {
    var permits' := DropPermitLinks(permits, gone);
    forall k | k in permits'
      ensures HoldsScopes(permits'[k], installations, Without(links, gone), t)
    {
      assert HoldsScopes(permits[k], installations, links, clock);
    }
  }

  /** Dropping links that no waiting row uses and no submission in flight depends on. */
  lemma DropKeeps(db: Db, gone: set<Id>, t: Time)
    requires Inv(db) && db.clock <= t
    requires Unawaited(db.outbox, gone) && Landed(db.permits, gone, t)
    ensures Inv(DropLinks(db, gone).(clock := t))
  {
    var permits', outbox' := DropPermitLinks(db.permits, gone), DropRowLinks(db.outbox, gone);
    DropPairs(db.permits, db.outbox, gone, db.clock, t);
    DropFits(db.outbox, db.installations, db.links, gone);
    DropHolds(db.permits, db.installations, db.links, gone, db.clock, t);
    DropBegun(db.permits, db.outbox, gone);
    var after := DropLinks(db, gone).(clock := t);
    assert after.permits == permits' && after.outbox == outbox' && after.links == Without(db.links, gone);
  }

  /* ---- commits ------------------------------------------------------- */

  lemma FenceStopsWaiting(db: Db, target: Scope, t1: Time, t2: Time, o: Id)
    requires o in db.outbox
    ensures var r := Fence(db, target, false, t1, t2).outbox[o];
      Waiting(r) ==> r == db.outbox[o] && !Covers(target, r.installation, r.link, r.scope)
  {
  }

  lemma FenceUnawaits(db: Db, l: Id, t1: Time, t2: Time)
    ensures Unawaited(Fence(db, OfLink(l), false, t1, t2).outbox, {l})
  {
    var fenced := Fence(db, OfLink(l), false, t1, t2);
    forall o | o in fenced.outbox && Waiting(fenced.outbox[o]) && fenced.outbox[o].link.Some?
      ensures fenced.outbox[o].link.value !in {l}
    {
      FenceStopsWaiting(db, OfLink(l), t1, t2, o);
    }
  }

  lemma CommitLinkDrops(db: Db, l: Id, t1: Time, t2: Time, t3: Time)
    requires Inv(db) && db.clock <= t1 <= t2 <= t3
    requires !InFlight(Fence(db, OfLink(l), false, t1, t2).permits, OfLink(l), t3)
    ensures Inv(DropLinks(Fence(db, OfLink(l), false, t1, t2), {l}).(clock := t3))
  {
    DrainKeeps(db, db, OfLink(l), false, t1, t2);
    var fenced := Fence(db, OfLink(l), false, t1, t2);
    assert Unawaited(fenced.outbox, {l}) by { FenceUnawaits(db, l, t1, t2); }
    DropKeeps(fenced, {l}, t3);
  }

  lemma CommitLinkKeeps(db: Db, operation: Id, t1: Time, t2: Time, t3: Time)
    requires Inv(db) && CommitLink(db, operation, t1, t2, t3).Some?
    ensures Inv(CommitLink(db, operation, t1, t2, t3).value)
  {
    if db.operations[operation].committed {
      SweepKeeps(db, db.permits, t3);
    } else {
      CommitLinkDrops(db, db.operations[operation].target.link, t1, t2, t3);
    }
  }

  lemma CommitInstallationDrops(db: Db, x: Id, t1: Time, t2: Time, t3: Time)
    requires Inv(db) && db.clock <= t1 <= t2 <= t3
    requires !InFlight(Fence(db, OfInstallation(x), false, t1, t2).permits, OfInstallation(x), t3)
    ensures var fenced := Fence(db, OfInstallation(x), false, t1, t2);
      Inv(DropLinks(fenced, LinksOf(fenced, x)).(clock := t3))
  {
    DrainKeeps(db, db, OfInstallation(x), false, t1, t2);
    var fenced := Fence(db, OfInstallation(x), false, t1, t2);
    var gone := LinksOf(fenced, x);
    forall o | o in fenced.outbox && Waiting(fenced.outbox[o]) && fenced.outbox[o].link.Some?
      ensures fenced.outbox[o].link.value !in gone
    {
      FenceStopsWaiting(db, OfInstallation(x), t1, t2, o);
      assert RowFits(fenced.outbox[o], fenced.installations, fenced.links);
    }
    forall p | p in fenced.permits && fenced.permits[p].state == Started && fenced.permits[p].deadline > t3 && fenced.permits[p].scope.Some?
      ensures fenced.permits[p].scope.value !in gone
    {
      assert HoldsScopes(fenced.permits[p], fenced.installations, fenced.links, fenced.clock);
    }
    DropKeeps(fenced, gone, t3);
  }

  /** An installation nothing waits for and nothing is in flight for may become inactive. */
  lemma DeactivateKeeps(db: Db, x: Id, after: Db)
    requires Inv(db) && x in db.installations
    requires forall o :: o in db.outbox && Waiting(db.outbox[o]) ==> db.outbox[o].installation != x
    requires !InFlight(db.permits, OfInstallation(x), db.clock)
    requires after.clock == db.clock && after.links == db.links && after.outbox == db.outbox && after.permits == db.permits
    requires after.installations.Keys == db.installations.Keys
    requires forall y :: y in db.installations && y != x ==> after.installations[y] == db.installations[y]
    ensures Inv(after)
  {
    forall o | o in after.outbox
      ensures RowFits(after.outbox[o], after.installations, after.links)
    {
      assert RowFits(db.outbox[o], db.installations, db.links);
    }
    forall p | p in after.permits
      ensures HoldsScopes(after.permits[p], after.installations, after.links, after.clock)
    {
      assert HoldsScopes(db.permits[p], db.installations, db.links, db.clock);
    }
  }

  lemma CommitInstallationKeeps(db: Db, operation: Id, t1: Time, t2: Time, t3: Time)
    requires Inv(db) && CommitInstallation(db, operation, t1, t2, t3).Some?
    ensures Inv(CommitInstallation(db, operation, t1, t2, t3).value)
  {
    var x := db.operations[operation].target.installation;
    if db.operations[operation].committed {
      SweepKeeps(db, db.permits, t3);
    } else {
      CommitInstallationDrops(db, x, t1, t2, t3);
      var fenced := Fence(db, OfInstallation(x), false, t1, t2);
      var dropped := DropLinks(fenced, LinksOf(fenced, x)).(clock := t3);
      forall o | o in dropped.outbox && Waiting(dropped.outbox[o])
        ensures dropped.outbox[o].installation != x
      {
        FenceStopsWaiting(db, OfInstallation(x), t1, t2, o);
      }
      forall p | p in dropped.permits && dropped.permits[p].state == Started && dropped.permits[p].deadline > t3
        ensures dropped.permits[p].installation != x
      {
        assert fenced.permits[p].installation == dropped.permits[p].installation;
      }
      DeactivateKeeps(dropped, x, CommitInstallation(db, operation, t1, t2, t3).value);
    }
  }

  lemma DropForward(permits: map<Id, PermitRow>, target: Scope, gone: set<Id>, t2: Time, t3: Time, p: Id)
    requires p in permits && t2 <= t3
    ensures var fenced := FencedPermits(permits, target, false, t2);
      PermitForward(permits[p], DropPermitLinks(fenced, gone)[p], false, t3)
  {
    FenceForward(permits, target, t2, p);
  }

  /** Commits only stop scopes and only finish what is past its deadline. */
  lemma CommitLinkForward(db: Db, operation: Id, t1: Time, t2: Time, t3: Time)
    requires CommitLink(db, operation, t1, t2, t3).Some?
    ensures Forward(db, CommitLink(db, operation, t1, t2, t3).value, {})
  {
    var after := CommitLink(db, operation, t1, t2, t3).value;
    var target := db.operations[operation].target;
    if !db.operations[operation].committed {
      var gone := {target.link};
      assert after.permits == DropPermitLinks(FencedPermits(db.permits, target, false, t2), gone);
      forall p | p in db.permits
        ensures p in after.permits && PermitForward(db.permits[p], after.permits[p], false, t3)
      {
        DropForward(db.permits, target, gone, t2, t3, p);
      }
    }
  }

  lemma CommitInstallationForward(db: Db, operation: Id, t1: Time, t2: Time, t3: Time)
    requires CommitInstallation(db, operation, t1, t2, t3).Some?
    ensures Forward(db, CommitInstallation(db, operation, t1, t2, t3).value, {})
  {
    var after := CommitInstallation(db, operation, t1, t2, t3).value;
    var target := db.operations[operation].target;
    if !db.operations[operation].committed {
      var gone := LinksOf(Fence(db, target, false, t1, t2), target.installation);
      assert after.permits == DropPermitLinks(FencedPermits(db.permits, target, false, t2), gone);
      forall p | p in db.permits
        ensures p in after.permits && PermitForward(db.permits[p], after.permits[p], false, t3)
      {
        DropForward(db.permits, target, gone, t2, t3, p);
      }
    }
  }

  /* ---- rows that appear, and columns dispatch only reads -------------- */

  lemma RegisterKeeps(db: Db, x: Id)
    requires Inv(db) && Register(db, x).Some?
    ensures Inv(Register(db, x).value) && Forward(db, Register(db, x).value, {})
  {
    var after := Register(db, x).value;
    forall o | o in after.outbox
      ensures RowFits(after.outbox[o], after.installations, after.links)
    {
      assert RowFits(db.outbox[o], db.installations, db.links);
    }
    forall p | p in after.permits
      ensures HoldsScopes(after.permits[p], after.installations, after.links, after.clock)
    {
      assert HoldsScopes(db.permits[p], db.installations, db.links, db.clock);
    }
  }

  lemma LinkAccountKeeps(db: Db, l: Id, x: Id)
    requires Inv(db) && LinkAccount(db, l, x).Some?
    ensures Inv(LinkAccount(db, l, x).value) && Forward(db, LinkAccount(db, l, x).value, {})
  {
    var after := LinkAccount(db, l, x).value;
    forall o | o in after.outbox
      ensures RowFits(after.outbox[o], after.installations, after.links)
    {
      assert RowFits(db.outbox[o], db.installations, db.links);
    }
    forall p | p in after.permits
      ensures HoldsScopes(after.permits[p], after.installations, after.links, after.clock)
    {
      assert HoldsScopes(db.permits[p], db.installations, db.links, db.clock);
    }
  }
}
