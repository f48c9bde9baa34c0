/**
 What recovery, drains and commits do to a row, and when they happen at all, read off the
 row, its permits and the clock.
 */
module DispatchEffects {
  import opened Base
  import opened Dispatch
  import opened DispatchInvariant
  import opened DispatchOutcomes

  /** Where a row goes that gives its lease back. */
  predicate GivenBack(r: OutboxRow, r': OutboxRow) {
    r' == r.(state := r'.state, leaseExpiresAt := None) && r'.state == (if r.attempts < 8 then Pending else Cancelled)
  }

  /* ---- scopes that appear ------------------------------------------------------- */

  /** A new installation is active, in generation 0 and with a deliverable token; a new link is active under an active installation. */
  lemma ScopesAppearExactly(db: Db, x: Id, l: Id)
    ensures Register(db, x).Some? <==> db.gates.ready && db.gates.mutations && x !in db.installations && x !in db.tokens
    ensures Register(db, x).Some? ==>
      Register(db, x).value == db.(
        installations := db.installations[x := Installation(Live, 0)], tokens := db.tokens[x := true])
    ensures LinkAccount(db, l, x).Some? <==>
      db.gates.ready && db.gates.mutations && x in db.installations && db.installations[x].state == Live && l !in db.links
    ensures LinkAccount(db, l, x).Some? ==> LinkAccount(db, l, x).value == db.(links := db.links[l := Link(x, Live, 0)])
  {
  }

  /** An alert's row is made exactly for a known, active and deliverable scope, while monitors are open. */
  lemma CreateAlertExactly(db: Db, o: Id, x: Id, link: Option<Id>)
    requires o !in db.outbox
    ensures CreateAlert(db, o, x, link).Some? <==>
      && db.gates.ready && db.gates.monitors && x in db.installations && (link.Some? ==> link.value in db.links)
      && Deliverable(db, x, db.installations[x].generation, link, if link.Some? then Some(db.links[link.value].generation) else None)
    ensures CreateAlert(db, o, x, link).Some? ==>
      CreateAlert(db, o, x, link).value == db.(outbox := db.outbox[o := OutboxRow(
        x, link, link, if link.Some? then Some(db.links[link.value].generation) else None, db.installations[x].generation, Pending, None, 0)])
  {
  }

  /** acquireDispatchPermit asks neither for the gates, the egress lease, the token nor the attempts. */
  lemma AcquireExactly(db: Db, x: Id, link: Option<Id>, o: Id, p: Id, t1: Time, t2: Time)
    requires db.clock <= t1 <= t2 && p !in db.permits
    ensures AcquirePermit(db, x, link, o, p, t1, t2).Some? <==>
      && x in db.installations && db.installations[x].state == Live
      && (link.Some? ==> link.value in db.links && db.links[link.value].installation == x && db.links[link.value].state == Live)
      && o in db.outbox
      && var r := db.outbox[o];
      r.installation == x && r.state == Pending && r.link == link && r.generation == db.installations[x].generation
    ensures AcquirePermit(db, x, link, o, p, t1, t2).Some? ==>
      var generation := if link.Some? then Some(db.links[link.value].generation) else None;
      AcquirePermit(db, x, link, o, p, t1, t2).value == db.(
        clock := t2,
        outbox := db.outbox[o := db.outbox[o].(state := Leased, scope := link, linkGeneration := generation)],
        permits := db.permits[p := PermitRow(o, x, link, link, generation, db.outbox[o].generation, Active, t1 + 30_000, t2 + 10_000)])
  {
  }

  /* ---- one permit and its row ------------------------------------------------- */

  /** A claim of a pending row: who may make it, and the permit it grants for ten seconds. */
  lemma ClaimExactly(db: Db, o: Id, p: Id, owner: Id, g: nat, t1: Time, t2: Time, t3: Time)
    requires db.clock <= t1 <= t2 <= t3 && o in db.outbox && p !in db.permits
    ensures var r := db.outbox[o];
      ClaimNext(db, o, p, owner, g, t1, t2, t3).Some? <==>
        && db.gates.ready && db.gates.delivery
        && db.egress.Some? && db.egress.value.owner == owner && db.egress.value.generation == g && db.egress.value.expiresAt > t1
        && r.state == Pending && r.attempts < 8
        && Deliverable(db, r.installation, r.generation, r.scope, r.linkGeneration)
    ensures ClaimNext(db, o, p, owner, g, t1, t2, t3).Some? ==>
      var r, after := db.outbox[o], ClaimNext(db, o, p, owner, g, t1, t2, t3).value;
      && after == db.(clock := t3, outbox := after.outbox, permits := after.permits)
      && after.outbox == db.outbox[o := r.(state := Leased, leaseExpiresAt := Some(t3 + 30_000), attempts := r.attempts + 1)]
      && after.permits == db.permits[p := PermitRow(
           o, r.installation, r.link, r.link, r.linkGeneration, r.generation, Active, t2 + 30_000, t2 + 10_000)]
  {
  }

  /** A mark commits exactly while its permit is active and inside both its times and every scope is; the checks of the row never refuse it. */
  lemma MarkExactly(db: Db, p: Id, t1: Time, t2: Time)
    requires Inv(db) && db.clock <= t1 <= t2 && p in db.permits
    ensures var q := db.permits[p];
      MarkStarted(db, p, t1, t2).Some? <==>
        && q.state == Active && q.expiresAt > t1 && q.deadline > t2
        && Deliverable(db, q.installation, q.generation, q.scope, q.linkGeneration)
    ensures MarkStarted(db, p, t1, t2).Some? ==>
      var q, after := db.permits[p], MarkStarted(db, p, t1, t2).value;
      && after == db.(clock := t2, outbox := after.outbox, permits := after.permits)
      && q.outbox in db.outbox
      && after.permits == db.permits[p := q.(state := Started)]
      && after.outbox == db.outbox[q.outbox := db.outbox[q.outbox].(state := SubmissionStarted)]
  {
    assert Paired(db.permits[p], db.outbox, db.clock);
  }

  /** The row the provider is asked for exists exactly while its permit has begun, is inside its deadline and every scope is active. */
  lemma AuthorizeExactly(db: Db, p: Id, t: Time)
    requires Inv(db) && p in db.permits
    ensures var q := db.permits[p];
      ProviderRow(db, p, t) <==>
        && q.state == Started && q.deadline > t && db.gates.delivery
        && Deliverable(db, q.installation, q.generation, q.scope, q.linkGeneration)
  {
    assert Paired(db.permits[p], db.outbox, db.clock);
  }

  /** Abandoning expires an active permit and gives its row back, and does nothing to any other. */
  lemma AbandonExactly(db: Db, p: Id, t: Time)
    requires Inv(db) && db.clock <= t
    ensures Abandon(db, p, t).Some?
    ensures var after := Abandon(db, p, t).value;
      if p in db.permits && db.permits[p].state == Active
      then
        var q := db.permits[p];
        && q.outbox in db.outbox && q.outbox in after.outbox
        && after == db.(clock := t, outbox := after.outbox, permits := db.permits[p := q.(state := Expired)])
        && after.outbox == db.outbox[q.outbox := after.outbox[q.outbox]]
        && GivenBack(db.outbox[q.outbox], after.outbox[q.outbox])
      else after == db.(clock := t)
  {
    if p in db.permits { assert Paired(db.permits[p], db.outbox, db.clock); }
  }

  /* ---- recovery ------------------------------------------------------------- */

  /** A started row becomes unknown exactly when its one begun permit is overdue and in the batch, or was finished before. */
  lemma RecoverStarted(db: Db, f: set<Id>, e: set<Id>, t1: Time, t2: Time, t3: Time, t4: Time, o: Id, p: Id)
    requires Inv(db) && Recover(db, f, e, t1, t2, t3, t4).Some?
    requires o in db.outbox && db.outbox[o].state == SubmissionStarted && Begun(db.permits, o, p)
    ensures var q, r, after := db.permits[p], db.outbox[o], Recover(db, f, e, t1, t2, t3, t4).value;
      && o in after.outbox && p in after.permits
      && if q.state == Finished || (p in f && q.deadline <= t1)
         then after.outbox[o] == r.(state := OutcomeUnknown, leaseExpiresAt := None) && after.permits[p] == q.(state := Finished)
         else after.outbox[o] == r && after.permits[p] == q
  {
    assert Sole(db.permits, o, p);
    assert Paired(db.permits[p], db.outbox, db.clock);
    var permits1 := FinishOverdue(db.permits, f, t1);
    assert HasFinishedPermit(permits1, o, t2) <==> permits1[p].state == Finished;
  }

  /** Every active permit of the row is in the batch and past its expiry. */
  ghost predicate LeaseIsOver(db: Db, e: set<Id>, t: Time, o: Id) {
    forall p :: p in db.permits && db.permits[p].outbox == o && db.permits[p].state == Active ==>
      p in e && db.permits[p].expiresAt <= t
  }

  lemma LeasedHasActive(db: Db, o: Id, p: Id)
    requires Inv(db) && o in db.outbox && db.outbox[o].state == Leased
    requires p in db.permits && db.permits[p].outbox == o
    ensures db.permits[p].state == Active || db.permits[p].state == Expired
  {
    assert Paired(db.permits[p], db.outbox, db.clock);
  }

  lemma StillHeld(db: Db, f: set<Id>, e: set<Id>, t1: Time, t3: Time, o: Id)
    requires Inv(db) && o in db.outbox && db.outbox[o].state == Leased
    ensures HasPermit(ExpireOverdue(FinishOverdue(db.permits, f, t1), e, t3), o, {Active, Started}) <==> !LeaseIsOver(db, e, t3, o)
  {
    var permits1 := FinishOverdue(db.permits, f, t1);
    var permits2 := ExpireOverdue(permits1, e, t3);
    forall p | p in db.permits && db.permits[p].outbox == o
      ensures permits1[p] == db.permits[p]
      ensures permits2[p].outbox == o
      ensures permits2[p].state in {Active, Started} <==> db.permits[p].state == Active && !(p in e && db.permits[p].expiresAt <= t3)
    {
      LeasedHasActive(db, o, p);
    }
  }

  /** A leased row is given back exactly when its lease has expired and so has its active permit, which the batch picked. */
  lemma RecoverLeased(db: Db, f: set<Id>, e: set<Id>, t1: Time, t2: Time, t3: Time, t4: Time, o: Id)
    requires Inv(db) && Recover(db, f, e, t1, t2, t3, t4).Some?
    requires o in db.outbox && db.outbox[o].state == Leased
    ensures var r, after := db.outbox[o], Recover(db, f, e, t1, t2, t3, t4).value;
      && o in after.outbox
      && if r.leaseExpiresAt.Some? && r.leaseExpiresAt.value <= t4 && LeaseIsOver(db, e, t3, o)
         then GivenBack(r, after.outbox[o])
         else after.outbox[o] == r
  {
    StillHeld(db, f, e, t1, t3, o);
  }

  /** The other rows, and everything but rows, permits and clock, stay as they were. */
  lemma RecoverElse(db: Db, f: set<Id>, e: set<Id>, t1: Time, t2: Time, t3: Time, t4: Time)
    requires Recover(db, f, e, t1, t2, t3, t4).Some?
    ensures var after := Recover(db, f, e, t1, t2, t3, t4).value;
      && after == db.(clock := t4, outbox := after.outbox, permits := after.permits)
      && after.outbox.Keys == db.outbox.Keys && after.permits.Keys == db.permits.Keys
      && forall o :: o in db.outbox && db.outbox[o].state != SubmissionStarted && db.outbox[o].state != Leased ==>
           after.outbox[o] == db.outbox[o]
  {
  }

  /** A recovery whose batch takes every overdue submission leaves no started row past its deadline. */
  lemma FullRecoverySettles(db: Db, f: set<Id>, e: set<Id>, t1: Time, t2: Time, t3: Time, t4: Time, o: Id, p: Id)
    requires Inv(db) && Recover(db, f, e, t1, t2, t3, t4).Some?
    requires forall k :: k in db.permits && db.permits[k].state == Started && db.permits[k].deadline <= t1 ==> k in f
    requires var after := Recover(db, f, e, t1, t2, t3, t4).value;
      && o in after.outbox && after.outbox[o].state == SubmissionStarted && Begun(after.permits, o, p)
    ensures Recover(db, f, e, t1, t2, t3, t4).value.permits[p].state == Started
    ensures Recover(db, f, e, t1, t2, t3, t4).value.permits[p].deadline > t1
  {
    assert db.outbox[o].state == SubmissionStarted;
    assert Begun(db.permits, o, p);
    RecoverStarted(db, f, e, t1, t2, t3, t4, o, p);
  }

  /* ---- drains ------------------------------------------------------------------ */

  /** What a fence leaves of a covered row: waiting rows are cancelled, overdue submissions unknown, the rest stays. */
  predicate FencedRow(db: Db, o: Id, r: OutboxRow, t: Time)
    requires o in db.outbox
  {
    var r0 := db.outbox[o];
    && r == r0.(state := r.state, scope := r.scope)
    && (match r0.state
        case Pending => r.state == Cancelled
        case Leased => r.state == Cancelled
        case SubmissionStarted =>
          r.state == if exists p :: p in db.permits && db.permits[p].outbox == o && db.permits[p].state == Started && db.permits[p].deadline <= t
                     then OutcomeUnknown else SubmissionStarted
        case _ => r.state == r0.state)
  }

  /** What it leaves of a covered permit. */
  predicate FencedPermit(q0: PermitRow, q: PermitRow, t: Time) {
    && q == q0.(state := q.state, scope := q.scope)
    && (match q0.state
        case Active => q.state == Expired
        case Started => q.state == if q0.deadline <= t then Finished else Started
        case _ => q.state == q0.state)
  }

  /** A drain is allowed exactly for an active installation in an open service, and stops everything of it that has not begun. */
  lemma DrainExactly(db: Db, x: Id, also: set<Id>, operation: Id, t1: Time, t2: Time)
    requires db.clock <= t1 <= t2
    ensures DrainInstallation(db, x, also, operation, t1, t2).Some? <==>
      && db.gates.ready && db.gates.mutations
      && x in db.installations && db.installations[x].state == Live && operation !in db.operations
    ensures DrainInstallation(db, x, also, operation, t1, t2).Some? ==>
      var after := DrainInstallation(db, x, also, operation, t1, t2).value;
      && after.installations == db.installations[x := Installation(Draining, db.installations[x].generation)]
      && after.operations == db.operations[operation := Operation(OfInstallation(x), false)]
      && after.tokens == db.tokens && after.gates == db.gates && after.clock == t2
      && after.outbox.Keys == db.outbox.Keys && after.permits.Keys == db.permits.Keys && after.links.Keys == db.links.Keys
      && (forall o :: o in db.outbox ==>
            if db.outbox[o].installation == x
            then FencedRow(db, o, after.outbox[o], t1) && after.outbox[o].scope == Coalesce(db.outbox[o].scope, db.outbox[o].link)
            else after.outbox[o] == db.outbox[o])
      && (forall p :: p in db.permits ==>
            if db.permits[p].installation == x
            then FencedPermit(db.permits[p], after.permits[p], t2) && after.permits[p].scope == Coalesce(db.permits[p].scope, db.permits[p].link)
            else after.permits[p] == db.permits[p])
      && (forall l :: l in db.links ==>
            after.links[l] == if l in also && db.links[l].installation == x && db.links[l].state == Live
                              then Link(x, Draining, db.links[l].generation) else db.links[l])
  {
  }

  /** The same for an account link and the rows in its scope. */
  lemma DrainLinkExactly(db: Db, x: Id, l: Id, operation: Id, t1: Time, t2: Time)
    requires db.clock <= t1 <= t2
    ensures DrainLink(db, x, l, operation, t1, t2).Some? <==>
      && db.gates.ready && db.gates.mutations
      && x in db.installations && db.installations[x].state == Live
      && l in db.links && db.links[l].installation == x && db.links[l].state == Live && operation !in db.operations
    ensures DrainLink(db, x, l, operation, t1, t2).Some? ==>
      var after := DrainLink(db, x, l, operation, t1, t2).value;
      && after.links == db.links[l := Link(x, Draining, db.links[l].generation)]
      && after.operations == db.operations[operation := Operation(OfLink(l), false)]
      && after.installations == db.installations && after.tokens == db.tokens && after.gates == db.gates && after.clock == t2
      && after.outbox.Keys == db.outbox.Keys && after.permits.Keys == db.permits.Keys
      && (forall o :: o in db.outbox ==>
            if db.outbox[o].link == Some(l) || db.outbox[o].scope == Some(l)
            then FencedRow(db, o, after.outbox[o], t1) && after.outbox[o].scope == Coalesce(db.outbox[o].scope, Some(l))
            else after.outbox[o] == db.outbox[o])
      && (forall p :: p in db.permits ==>
            if db.permits[p].link == Some(l) || db.permits[p].scope == Some(l)
            then FencedPermit(db.permits[p], after.permits[p], t2) && after.permits[p].scope == Coalesce(db.permits[p].scope, Some(l))
            else after.permits[p] == db.permits[p])
  {
  }

  /* ---- commits ------------------------------------------------------------------- */

  /** A revocation commits exactly when the installation is draining and no submission of it has its deadline ahead; a second commit changes nothing. */
  lemma CommitExactly(db: Db, operation: Id, t1: Time, t2: Time, t3: Time)
    requires db.clock <= t1 <= t2 <= t3
    requires operation in db.operations && db.operations[operation].target.OfInstallation?
    ensures var x := db.operations[operation].target.installation;
      CommitInstallation(db, operation, t1, t2, t3).Some? <==>
        || db.operations[operation].committed
        || (&& x in db.installations && db.installations[x].state == Draining
            && forall p :: p in db.permits && db.permits[p].installation == x && db.permits[p].state == Started ==>
                 db.permits[p].deadline <= t3)
    ensures db.operations[operation].committed ==> CommitInstallation(db, operation, t1, t2, t3) == Some(db.(clock := t3))
  {
    var x := db.operations[operation].target.installation;
    var fenced := Fence(db, OfInstallation(x), false, t1, t2);
    if p :| p in db.permits && db.permits[p].installation == x && db.permits[p].state == Started && db.permits[p].deadline > t3 {
      assert fenced.permits[p].state == Started;
    }
  }

  /** The same for an unlink and the submissions in the link's scope. */
  lemma CommitLinkExactly(db: Db, operation: Id, t1: Time, t2: Time, t3: Time)
    requires Inv(db) && db.clock <= t1 <= t2 <= t3
    requires operation in db.operations && db.operations[operation].target.OfLink?
    ensures var l := db.operations[operation].target.link;
      CommitLink(db, operation, t1, t2, t3).Some? <==>
        || db.operations[operation].committed
        || (&& l in db.links && db.links[l].state == Draining
            && forall p :: p in db.permits && db.permits[p].scope == Some(l) && db.permits[p].state == Started ==>
                 db.permits[p].deadline <= t3)
    ensures db.operations[operation].committed ==> CommitLink(db, operation, t1, t2, t3) == Some(db.(clock := t3))
  {
    var l := db.operations[operation].target.link;
    var fenced := Fence(db, OfLink(l), false, t1, t2);
    if p :| p in db.permits && db.permits[p].scope == Some(l) && db.permits[p].state == Started && db.permits[p].deadline > t3 {
      assert fenced.permits[p].state == Started;
    }
    forall p | p in db.permits && fenced.permits[p].scope == Some(l)
      ensures db.permits[p].scope == Some(l)
    {
      assert Paired(db.permits[p], db.outbox, db.clock);
      assert RowFits(db.outbox[db.permits[p].outbox], db.installations, db.links);
    }
  }

  /** What an unlink leaves: the link row and every reference to it are gone, its waiting rows are cancelled, other installations and links stay. */
  lemma CommitLinkLeaves(db: Db, operation: Id, t1: Time, t2: Time, t3: Time, o: Id)
    requires Inv(db) && CommitLink(db, operation, t1, t2, t3).Some? && !db.operations[operation].committed && o in db.outbox
    ensures var l, after := db.operations[operation].target.link, CommitLink(db, operation, t1, t2, t3).value;
      && after.links == (map k | k in db.links && k != l :: db.links[k])
      && after.installations == db.installations && after.tokens == db.tokens
      && after.operations == db.operations[operation := Operation(OfLink(l), true)]
      && o in after.outbox && after.outbox[o].link == (if db.outbox[o].link == Some(l) then None else db.outbox[o].link)
      && if db.outbox[o].scope == Some(l)
         then FencedRow(db, o, after.outbox[o].(link := db.outbox[o].link), t1) && after.outbox[o].scope == Some(l)
         else after.outbox[o] == db.outbox[o]
  {
    assert RowFits(db.outbox[o], db.installations, db.links);
  }

  /** What a revocation leaves of the rows of its installation and of all others. */
  lemma CommitLeaves(db: Db, operation: Id, t1: Time, t2: Time, t3: Time, o: Id)
    requires Inv(db) && CommitInstallation(db, operation, t1, t2, t3).Some? && !db.operations[operation].committed && o in db.outbox
    ensures var x, after := db.operations[operation].target.installation, CommitInstallation(db, operation, t1, t2, t3).value;
      && after.installations == db.installations[x := Installation(Inactive, db.installations[x].generation + 1)]
      && after.links == (map k | k in db.links && db.links[k].installation != x :: db.links[k])
      && after.tokens == (map y | y in db.tokens && y != x :: db.tokens[y])
      && after.operations == db.operations[operation := Operation(OfInstallation(x), true)]
      && o in after.outbox
      && if db.outbox[o].installation == x
         then FencedRow(db, o, after.outbox[o].(link := db.outbox[o].link), t1) && after.outbox[o].link == None
         else after.outbox[o] == db.outbox[o]
  {
    var r := db.outbox[o];
    assert RowFits(r, db.installations, db.links);
    var x := db.operations[operation].target.installation;
    var fenced := Fence(db, OfInstallation(x), false, t1, t2);
    assert r.link.Some? ==> (r.link.value in LinksOf(fenced, x) <==> r.installation == x);
  }
}
