/**
 What the state of an outbox row says: which step of which worker put it there, what
 the provider had answered by then, and when it was asked.
 */
module DispatchOutcomes {
  import opened Base
  import opened Dispatch
  import opened DispatchInvariant
  import opened DispatchRevocation
  import opened DispatchRuns
  import opened DispatchTheorems

  /* ---- who may change the state of a row ---------------------------------- */

  predicate PermitOf(db: Db, p: Id, o: Id) {
    p in db.permits && db.permits[p].outbox == o
  }

  /** The step is a worker's record of `outcome` with permit `p` of row `o`, and it commits. */
  predicate Records(world: World, step: Step, o: Id, p: Id, outcome: OutboxState) {
    && step.WorkerFinish?
    && var pc := Pc(world, step.w);
    && pc.Finishing? && pc.permit == p && pc.outcome == outcome
    && PermitOf(world.db, p, o) && world.db.permits[p].state == Started
    && PermitOf(Apply(world, step).db, p, o) && Apply(world, step).db.permits[p].state == Finished
  }

  predicate RecordsRow(world: World, step: Step, o: Id, outcome: OutboxState) {
    step.WorkerFinish? && Pc(world, step.w).Finishing? && Records(world, step, o, Pc(world, step.w).permit, outcome)
  }

  /** The installation, its push token and, where there is one, the account link are active, in these generations. */
  predicate Deliverable(db: Db, x: Id, generation: nat, scope: Option<Id>, linkGeneration: Option<nat>) {
    && x in db.installations && db.installations[x].state == Live && db.installations[x].generation == generation
    && x in db.tokens && db.tokens[x]
    && (scope.Some? ==>
          && scope.value in db.links && db.links[scope.value].installation == x
          && db.links[scope.value].state == Live && linkGeneration == Some(db.links[scope.value].generation))
  }

  /** A claim, of a deliverable row, while delivery is open and the caller holds the egress lease. */
  predicate ClaimsRow(world: World, step: Step, o: Id)
    requires o in world.db.outbox
  {
    && step.WorkerClaim? && step.o == o
    && var db, r := world.db, world.db.outbox[o];
    && r.attempts < 8 && db.gates.ready && db.gates.delivery
    && db.egress.Some? && db.egress.value.owner == step.owner && db.egress.value.generation == step.generation
    && db.egress.value.expiresAt > step.t1
    && Deliverable(db, r.installation, r.generation, r.scope, r.linkGeneration)
  }

  /** A permit acquired for a row of an active installation, and of an active link if it names one; the push token is not asked for. */
  predicate AcquiresRow(world: World, step: Step, o: Id)
    requires o in world.db.outbox
  {
    && step.DoAcquirePermit? && step.o == o
    && var db, r := world.db, world.db.outbox[o];
    && r.installation == step.x && r.link == step.link
    && step.x in db.installations && db.installations[step.x] == Installation(Live, r.generation)
    && (step.link.Some? ==>
          && step.link.value in db.links
          && db.links[step.link.value].installation == step.x && db.links[step.link.value].state == Live)
  }

  /** The holder of an active permit inside its deadline marks the row, while its scopes are active. */
  predicate MarksRow(world: World, step: Step, o: Id) {
    && step.WorkerMark? && Pc(world, step.w).Claimed?
    && var p := Pc(world, step.w).permit;
    && PermitOf(world.db, p, o)
    && var q := world.db.permits[p];
    && q.state == Active && q.expiresAt > step.t1 && q.deadline > step.t2
    && Deliverable(world.db, q.installation, q.generation, q.scope, q.linkGeneration)
  }

  predicate AbandonsRow(world: World, step: Step, o: Id) {
    step.WorkerAbandon? && Pc(world, step.w).Abandoning? && PermitOf(world.db, Pc(world, step.w).permit, o)
  }

  /** The step fences a scope the row belongs to. */
  predicate FencesRow(db: Db, step: Step, r: OutboxRow) {
    match step
    case DoDrainInstallation(x, _, _, _, _) => r.installation == x
    case DoDrainLink(_, l, _, _, _) => r.link == Some(l) || r.scope == Some(l)
    case DoCommitInstallation(operation, _, _, _) =>
      operation in db.operations && db.operations[operation].target == OfInstallation(r.installation)
    case DoCommitLink(operation, _, _, _) =>
      && operation in db.operations && db.operations[operation].target.OfLink?
      && var l := db.operations[operation].target.link;
      r.link == Some(l) || r.scope == Some(l)
    case _ => false
  }

  /** A submission of the row has begun and its deadline has passed. */
  ghost predicate Overdue(db: Db, o: Id, t: Time) {
    exists p :: Begun(db.permits, o, p) && db.permits[p].deadline <= t
  }

  /** The only ways for row `o` to get to another state. */
  ghost predicate MayBecome(world: World, step: Step, o: Id, to: OutboxState)
    requires o in world.db.outbox
  {
    var r := world.db.outbox[o];
    match to
    case Leased => r.state == Pending && (ClaimsRow(world, step, o) || AcquiresRow(world, step, o))
    case SubmissionStarted => r.state == Leased && MarksRow(world, step, o)
    case Pending => r.state == Leased && r.attempts < 8 && (step.DoRecover? || AbandonsRow(world, step, o))
    case Cancelled =>
      || (r.state == Leased && r.attempts >= 8 && (step.DoRecover? || AbandonsRow(world, step, o)))
      || ((r.state == Leased || r.state == Pending) && FencesRow(world.db, step, r))
    case ProviderAccepted => r.state == SubmissionStarted && RecordsRow(world, step, o, ProviderAccepted)
    case ProviderRejected => r.state == SubmissionStarted && RecordsRow(world, step, o, ProviderRejected)
    case OutcomeUnknown =>
      && r.state == SubmissionStarted
      && (|| RecordsRow(world, step, o, OutcomeUnknown)
          || ((step.DoRecover? || FencesRow(world.db, step, r)) && Overdue(world.db, o, Apply(world, step).db.clock)))
  }

  ghost predicate Explained(world: World, step: Step, o: Id)
    requires o in world.db.outbox
  {
    && o in Apply(world, step).db.outbox
    && (Apply(world, step).db.outbox[o].state == world.db.outbox[o].state
        || MayBecome(world, step, o, Apply(world, step).db.outbox[o].state))
  }

  /** What a fence of `target` makes of the state of a row it covers. */
  ghost predicate Fences(db: Db, target: Scope, o: Id, to: OutboxState, t: Time)
    requires o in db.outbox
  {
    var r := db.outbox[o];
    || to == r.state
    || (&& Covers(target, r.installation, r.link, r.scope)
        && (|| (to == Cancelled && (r.state == Leased || r.state == Pending))
            || (to == OutcomeUnknown && r.state == SubmissionStarted && Overdue(db, o, t))))
  }

  lemma FenceFences(db: Db, target: Scope, t1: Time, t2: Time, o: Id)
    requires o in db.outbox && t1 <= t2
    ensures Fences(db, target, o, Fence(db, target, false, t1, t2).outbox[o].state, t2)
  {
    if HasOverduePermit(db.permits, o, t1) {
      var p :| p in db.permits && db.permits[p].outbox == o && db.permits[p].state == Started && db.permits[p].deadline <= t1;
      assert Begun(db.permits, o, p);
    }
  }

  lemma DrainFences(db: Db, step: Step, o: Id, target: Scope)
    requires o in db.outbox
    requires match step
      case DoDrainInstallation(x, _, _, _, _) => target == OfInstallation(x)
      case DoDrainLink(_, l, _, _, _) => target == OfLink(l)
      case _ => false
    ensures match step
      case DoDrainInstallation(x, also, op, t1, t2) =>
        var tx := DrainInstallation(db, x, also, op, t1, t2);
        tx.Some? ==> o in tx.value.outbox && Fences(db, target, o, tx.value.outbox[o].state, tx.value.clock)
      case DoDrainLink(x, l, op, t1, t2) =>
        var tx := DrainLink(db, x, l, op, t1, t2);
        tx.Some? ==> o in tx.value.outbox && Fences(db, target, o, tx.value.outbox[o].state, tx.value.clock)
      case _ => true
  {
    if step.t1 <= step.t2 { FenceFences(db, target, step.t1, step.t2, o); }
  }

  lemma CommitInstallationFences(db: Db, op: Id, t1: Time, t2: Time, t3: Time, o: Id)
    requires o in db.outbox && CommitInstallation(db, op, t1, t2, t3).Some?
    ensures var after := CommitInstallation(db, op, t1, t2, t3).value;
      o in after.outbox && Fences(db, db.operations[op].target, o, after.outbox[o].state, after.clock)
  {
    FenceFences(db, db.operations[op].target, t1, t2, o);
  }

  lemma CommitLinkFences(db: Db, op: Id, t1: Time, t2: Time, t3: Time, o: Id)
    requires o in db.outbox && CommitLink(db, op, t1, t2, t3).Some?
    ensures var after := CommitLink(db, op, t1, t2, t3).value;
      o in after.outbox && Fences(db, db.operations[op].target, o, after.outbox[o].state, after.clock)
  {
    FenceFences(db, db.operations[op].target, t1, t2, o);
  }

  lemma DrainExplained(world: World, step: Step, o: Id)
    requires (step.DoDrainInstallation? || step.DoDrainLink?) && o in world.db.outbox
    ensures Explained(world, step, o)
  {
    if Apply(world, step).db != world.db {
      DrainFences(world.db, step, o, if step.DoDrainLink? then OfLink(step.l) else OfInstallation(step.x));
    }
  }

  lemma CommitExplained(world: World, step: Step, o: Id)
    requires (step.DoCommitInstallation? || step.DoCommitLink?) && o in world.db.outbox
    ensures Explained(world, step, o)
  {
    if Apply(world, step).db != world.db {
      match step
      case DoCommitInstallation(op, t1, t2, t3) => CommitInstallationFences(world.db, op, t1, t2, t3, o);
      case DoCommitLink(op, t1, t2, t3) => CommitLinkFences(world.db, op, t1, t2, t3, o);
    }
  }

  lemma RecoverExplained(world: World, step: Step, o: Id)
    requires step.DoRecover? && o in world.db.outbox
    ensures Explained(world, step, o)
  {
    var db := world.db;
    if Recover(db, step.finishing, step.expiring, step.t1, step.t2, step.t3, step.t4).Some? {
      var permits1 := FinishOverdue(db.permits, step.finishing, step.t1);
      if db.outbox[o].state == SubmissionStarted && HasFinishedPermit(permits1, o, step.t2) {
        var p :| p in permits1 && permits1[p].outbox == o && permits1[p].state == Finished && permits1[p].deadline <= step.t2;
        assert Begun(db.permits, o, p) && db.permits[p].deadline <= step.t4;
      }
    }
  }

  lemma ClaimExplained(world: World, step: Step, o: Id)
    requires step.WorkerClaim? && o in world.db.outbox
    ensures Explained(world, step, o)
  {
  }

  lemma MarkExplained(world: World, step: Step, o: Id)
    requires step.WorkerMark? && o in world.db.outbox
    ensures Explained(world, step, o)
  {
  }

  lemma AbandonExplained(world: World, step: Step, o: Id)
    requires step.WorkerAbandon? && o in world.db.outbox
    ensures Explained(world, step, o)
  {
  }

  lemma FinishExplained(world: World, step: Step, o: Id)
    requires step.WorkerFinish? && o in world.db.outbox
    ensures Explained(world, step, o)
  {
  }

  /** Every step leaves the state of every row, or is one of those that may change it so. */
  lemma StepExplained(world: World, step: Step, o: Id)
    requires o in world.db.outbox
    ensures Explained(world, step, o)
  {
    if DispatchStep(step) {
      match step
      case WorkerClaim(_, _, _, _, _, _, _, _, _) => ClaimExplained(world, step, o);
      case WorkerMark(_, _, _, _) => MarkExplained(world, step, o);
      case WorkerAbandon(_, _) => AbandonExplained(world, step, o);
      case WorkerFinish(_, _, _) => FinishExplained(world, step, o);
    } else if StoreStep(step) {
      match step
      case DoRecover(_, _, _, _, _, _) => RecoverExplained(world, step, o);
      case DoRegister(_) =>
      case DoLinkAccount(_, _) =>
      case DoCreateAlert(_, _, _) =>
      case DoAcquirePermit(_, _, _, _, _, _) =>
      case DoDrainInstallation(_, _, _, _, _) => DrainExplained(world, step, o);
      case DoDrainLink(_, _, _, _, _) => DrainExplained(world, step, o);
      case DoCommitInstallation(_, _, _, _) => CommitExplained(world, step, o);
      case DoCommitLink(_, _, _, _) => CommitExplained(world, step, o);
    } else {
      QuietStep(world, step);
    }
  }

  /** A provider fetch is authorized only inside its deadline, with delivery open, the egress lease held and every scope of its permit active. */
  lemma AuthorizedOnlyLive(world: World, step: Step, i: nat)
    requires |world.log| <= i < |Apply(world, step).log| && Apply(world, step).log[i].FetchAuthorized?
    ensures step.WorkerAuthorize? && Pc(world, step.w).TokenRead?
    ensures var e, db := Apply(world, step).log[i], world.db;
      && e.permit == Pc(world, step.w).permit && PermitOf(db, e.permit, e.outbox) && e.outbox in db.outbox
      && var q := db.permits[e.permit];
      && q.state == Started && db.outbox[e.outbox].state == SubmissionStarted && e.at < q.deadline
      && e.installation == q.installation && e.scope == q.scope
      && db.gates.delivery
      && db.egress.Some? && db.egress.value.owner == step.owner && db.egress.value.generation == step.generation
      && db.egress.value.expiresAt > e.at
      && Deliverable(db, q.installation, q.generation, q.scope, q.linkGeneration)
  {
  }
}
