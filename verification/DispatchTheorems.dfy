/** The main results about dispatch: at-most-once, quiescence, pairing and progress over whole runs. */
module DispatchTheorems {
  import opened Base
  import opened Dispatch
  import opened DispatchInvariant
  import opened DispatchRevocation
  import opened DispatchRuns

  /* ---- what no run ever takes back ------------------------------------ */

  /** Permits keep their deadline, begun ones stay begun, stopped installations stay stopped, log and clock only grow. */
  ghost predicate Later(a: World, b: World) {
    && a.log <= b.log && a.db.clock <= b.db.clock
    && (forall p :: p in a.db.permits ==> p in b.db.permits && b.db.permits[p].deadline == a.db.permits[p].deadline)
    && (forall o, p :: Begun(a.db.permits, o, p) ==> Begun(b.db.permits, o, p))
    && (forall x :: x in a.db.installations ==>
          && x in b.db.installations
          && (a.db.installations[x].state != Live ==> b.db.installations[x].state != Live)
          && (a.db.installations[x].state == Inactive ==> b.db.installations[x].state == Inactive))
  }

  lemma ForwardIsLater(a: World, b: World, own: set<Id>)
    requires Forward(a.db, b.db, own) && a.log <= b.log
    ensures Later(a, b)
  {
    forall o, p | Begun(a.db.permits, o, p)
      ensures Begun(b.db.permits, o, p)
    {
      assert PermitForward(a.db.permits[p], b.db.permits[p], p in own, b.db.clock);
    }
  }

  lemma StoreStepLater(world: World, step: Step)
    requires WorldInv(world)
    requires StoreStep(step)
    ensures Later(world, Apply(world, step))
  {
    var db, after := world.db, Apply(world, step).db;
    if after != db {
      assert Forward(db, after, {}) by {
        match step
        case DoRegister(x) => RegisterKeeps(db, x);
        case DoLinkAccount(l, x) => LinkAccountKeeps(db, l, x);
        case DoCreateAlert(o, x, link) => CreateAlertKeeps(db, o, x, link);
        case DoAcquirePermit(x, link, o, p, t1, t2) => AcquireKeeps(db, x, link, o, p, t1, t2);
        case DoDrainInstallation(x, also, op, t1, t2) => DrainInstallationKeeps(db, x, also, op, t1, t2);
        case DoDrainLink(x, l, op, t1, t2) => DrainLinkKeeps(db, x, l, op, t1, t2);
        case DoCommitInstallation(op, t1, t2, t3) => CommitInstallationForward(db, op, t1, t2, t3);
        case DoCommitLink(op, t1, t2, t3) => CommitLinkForward(db, op, t1, t2, t3);
        case DoRecover(f, e, t1, t2, t3, t4) => RecoverForward(db, f, e, t1, t2, t3, t4);
      }
      ForwardIsLater(world, Apply(world, step), {});
    }
  }

  lemma DispatchStepForward(world: World, step: Step) returns (own: set<Id>)
    requires WorldInv(world) && DispatchStep(step)
    requires Apply(world, step).db != world.db
    ensures Forward(world.db, Apply(world, step).db, own)
  {
    own := {};
    match step
    case WorkerClaim(w, o, p, owner, g, t1, t2, t3, acked) => ClaimKeeps(world.db, o, p, owner, g, t1, t2, t3);
    case WorkerMark(w, t1, t2, acked) => MarkKeeps(world.db, Pc(world, w).permit, t1, t2);
    case WorkerAbandon(w, t1) => AbandonKeeps(world.db, Pc(world, w).permit, t1);
    case WorkerFinish(w, t1, acked) =>
      FinishKeeps(world.db, Pc(world, w).permit, Pc(world, w).outcome, Pc(world, w).outcome == OutcomeUnknown, t1);
      own := {Pc(world, w).permit};
  }

  lemma StepLater(world: World, step: Step)
    requires WorldInv(world)
    ensures Later(world, Apply(world, step))
  {
    if StoreStep(step) {
      StoreStepLater(world, step);
    } else if DispatchStep(step) {
      NonWorkerStepLogs(world, step);
      if Apply(world, step).db != world.db {
        var own := DispatchStepForward(world, step);
        ForwardIsLater(world, Apply(world, step), own);
      }
    } else {
      QuietStep(world, step);
    }
  }

  lemma {:induction false} RunLater(world: World, steps: seq<Step>, k: nat)
    requires Initial(world) && k <= |steps|
    ensures Later(Run(world, steps[..k]), Run(world, steps))
  {
    if k == |steps| {
      assert steps[..k] == steps;
    } else {
      var init := steps[..|steps| - 1];
      assert init[..k] == steps[..k];
      RunLater(world, init, k);
      RunKeeps(world, init);
      StepLater(Run(world, init), steps[|steps| - 1]);
    }
  }

  /* ---- at most once --------------------------------------------------- */

  /** At most one permit of an outbox row ever reaches submission_started, whatever crashes and re-claims happen. */
  lemma AtMostOneSubmission(world: World, steps: seq<Step>, i: nat, j: nat, o: Id, p: Id, q: Id)
    requires Initial(world) && i <= |steps| && j <= |steps|
    requires Begun(Run(world, steps[..i]).db.permits, o, p)
    requires Begun(Run(world, steps[..j]).db.permits, o, q)
    ensures p == q
  {
    RunLater(world, steps, i);
    RunLater(world, steps, j);
    RunKeeps(world, steps);
    assert Sole(Run(world, steps).db.permits, o, q);
  }

  /** provider.send runs at most once per outbox row. */
  lemma AtMostOneSend(world: World, steps: seq<Step>, i: nat, j: nat)
    requires Initial(world)
    requires i < j < |Run(world, steps).log|
    requires Run(world, steps).log[i].ProviderSend? && Run(world, steps).log[j].ProviderSend?
    ensures Run(world, steps).log[i].outbox != Run(world, steps).log[j].outbox
  {
    RunKeeps(world, steps);
    var end := Run(world, steps);
    assert Recorded(end.log[i], end.db.permits) && Recorded(end.log[j], end.db.permits);
    assert Sole(end.db.permits, end.log[j].outbox, end.log[j].permit);
  }

  /* ---- quiescence ----------------------------------------------------- */

  /** A step authorizes a fetch only for a live installation, and sends only for one that is not revoked. */
  lemma StepLogs(world: World, step: Step, i: nat)
    requires WorldInv(world)
    requires |world.log| <= i < |Apply(world, step).log|
    ensures var e := Apply(world, step).log[i];
      && e.installation in world.db.installations
      && (e.FetchAuthorized? ==> world.db.installations[e.installation].state == Live)
      && (e.ProviderSend? ==> world.db.installations[e.installation].state != Inactive)
  {
    if step.WorkerSend? {
      var pc := Pc(world, step.w);
      assert Holds(pc, world.db.permits, world.log, world.db.clock);
      assert HoldsScopes(world.db.permits[pc.permit], world.db.installations, world.db.links, world.db.clock);
    }
  }

  /** Once an installation leaves active, no provider fetch for it is ever authorized again. */
  lemma {:induction false} NoFetchAfterDrain(world: World, steps: seq<Step>, k: nat, x: Id, i: nat)
    requires Initial(world) && k <= |steps|
    requires x in Run(world, steps[..k]).db.installations
    requires Run(world, steps[..k]).db.installations[x].state != Live
    requires |Run(world, steps[..k]).log| <= i < |Run(world, steps).log|
    requires Run(world, steps).log[i].FetchAuthorized?
    ensures Run(world, steps).log[i].installation != x
  {
    assert steps[..|steps|] == steps;
    if k < |steps| {
      var init := steps[..|steps| - 1];
      assert init[..k] == steps[..k];
      RunLater(world, init, k);
      RunKeeps(world, init);
      var before := Run(world, init);
      StepLater(before, steps[|steps| - 1]);
      if i < |before.log| {
        assert before.log[i] == Run(world, steps).log[i];
        NoFetchAfterDrain(world, init, k, x, i);
      } else {
        StepLogs(before, steps[|steps| - 1], i);
      }
    }
  }

  /** Once an installation's revocation has committed, provider.send is never called for it again. */
  lemma {:induction false} NoSendAfterRevocation(world: World, steps: seq<Step>, k: nat, x: Id, i: nat)
    requires Initial(world) && k <= |steps|
    requires x in Run(world, steps[..k]).db.installations
    requires Run(world, steps[..k]).db.installations[x].state == Inactive
    requires |Run(world, steps[..k]).log| <= i < |Run(world, steps).log|
    requires Run(world, steps).log[i].ProviderSend?
    ensures Run(world, steps).log[i].installation != x
  {
    assert steps[..|steps|] == steps;
    if k < |steps| {
      var init := steps[..|steps| - 1];
      assert init[..k] == steps[..k];
      RunLater(world, init, k);
      RunKeeps(world, init);
      var before := Run(world, init);
      StepLater(before, steps[|steps| - 1]);
      if i < |before.log| {
        assert before.log[i] == Run(world, steps).log[i];
        NoSendAfterRevocation(world, init, k, x, i);
      } else {
        StepLogs(before, steps[|steps| - 1], i);
      }
    }
  }

  /** The worker was authorized to reach the provider for installation `x` and has not finished. */
  ghost predicate OnBehalf(world: World, pc: Worker, x: Id) {
    MayReachProvider(pc) && pc.permit in world.db.permits && world.db.permits[pc.permit].installation == x
  }

  /**
   In a revoked installation nothing waits, no submission is inside its deadline,
   and no worker that may still reach the provider for it is inside its deadline.
   */
  lemma RevokedIsQuiet(world: World, steps: seq<Step>, x: Id)
    requires Initial(world)
    requires x in Run(world, steps).db.installations
    requires Run(world, steps).db.installations[x].state == Inactive
    ensures var db := Run(world, steps).db;
      && (forall o :: o in db.outbox && db.outbox[o].installation == x ==> !Waiting(db.outbox[o]))
      && (forall p :: p in db.permits && db.permits[p].installation == x && db.permits[p].state == Started ==>
            db.permits[p].deadline <= db.clock)
    ensures var end := Run(world, steps);
      forall w :: w in end.workers && OnBehalf(end, end.workers[w], x) ==> end.workers[w].deadline <= end.db.clock
  {
    RunKeeps(world, steps);
    var end := Run(world, steps);
    forall o | o in end.db.outbox && end.db.outbox[o].installation == x
      ensures !Waiting(end.db.outbox[o])
    {
      assert RowFits(end.db.outbox[o], end.db.installations, end.db.links);
    }
    forall p | p in end.db.permits && end.db.permits[p].installation == x && end.db.permits[p].state == Started
      ensures end.db.permits[p].deadline <= end.db.clock
    {
      assert HoldsScopes(end.db.permits[p], end.db.installations, end.db.links, end.db.clock);
    }
    forall w | w in end.workers && OnBehalf(end, end.workers[w], x)
      ensures end.workers[w].deadline <= end.db.clock
    {
      assert Holds(end.workers[w], end.db.permits, end.log, end.db.clock);
    }
  }

  /** The commit that revokes an installation counts no submission whose deadline is ahead of its last clock read. */
  lemma CommitLeavesNothingInFlight(db: Db, operation: Id, t1: Time, t2: Time, t3: Time)
    requires Inv(db) && CommitInstallation(db, operation, t1, t2, t3).Some?
    requires !db.operations[operation].committed
    ensures var after := CommitInstallation(db, operation, t1, t2, t3).value;
      var x := db.operations[operation].target.installation;
      && after.clock == t3
      && after.installations[x] == Installation(Inactive, db.installations[x].generation + 1)
      && !InFlight(after.permits, OfInstallation(x), t3)
      && LinksOf(after, x) == {} && x !in after.tokens
  {
    CommitInstallationKeeps(db, operation, t1, t2, t3);
    var after := CommitInstallation(db, operation, t1, t2, t3).value;
    var x := db.operations[operation].target.installation;
    forall p | p in after.permits && after.permits[p].installation == x
      ensures !(after.permits[p].state == Started && after.permits[p].deadline > t3)
    {
      assert HoldsScopes(after.permits[p], after.installations, after.links, after.clock);
    }
  }

  /* ---- the same for an account link ----------------------------------- */

  /** The commit that unlinks an account counts no submission in its scope whose deadline is ahead. */
  lemma UnlinkLeavesNothingInFlight(db: Db, operation: Id, t1: Time, t2: Time, t3: Time)
    requires Inv(db) && CommitLink(db, operation, t1, t2, t3).Some?
    requires !db.operations[operation].committed
    ensures var after := CommitLink(db, operation, t1, t2, t3).value;
      var l := db.operations[operation].target.link;
      l !in after.links && after.clock == t3 && !InFlight(after.permits, OfLink(l), t3)
  {
    CommitLinkKeeps(db, operation, t1, t2, t3);
    var after := CommitLink(db, operation, t1, t2, t3).value;
    var l := db.operations[operation].target.link;
    forall p | p in after.permits && after.permits[p].scope == Some(l)
      ensures !(after.permits[p].state == Started && after.permits[p].deadline > t3)
    {
      assert HoldsScopes(after.permits[p], after.installations, after.links, after.clock);
    }
  }

  ghost predicate LinkStopped(db: Db, l: Id) {
    l !in db.links || db.links[l].state != Live
  }

  lemma StepKeepsLinkStopped(world: World, step: Step, l: Id)
    requires LinkStopped(world.db, l)
    requires step.DoLinkAccount? ==> step.l != l
    ensures LinkStopped(Apply(world, step).db, l)
  {
    if !StoreStep(step) && !DispatchStep(step) { QuietStep(world, step); }
  }

  lemma StepLogsLiveLinks(world: World, step: Step, i: nat, l: Id)
    requires WorldInv(world) && LinkStopped(world.db, l)
    requires |world.log| <= i < |Apply(world, step).log| && Apply(world, step).log[i].FetchAuthorized?
    ensures Apply(world, step).log[i].scope != Some(l)
  {
  }

  /** Until an account link is proven anew, no fetch is authorized in its scope once it left active. */
  lemma {:induction false} NoFetchAfterUnlink(world: World, steps: seq<Step>, k: nat, l: Id, i: nat)
    requires Initial(world) && k <= |steps|
    requires LinkStopped(Run(world, steps[..k]).db, l)
    requires forall n :: k <= n < |steps| && steps[n].DoLinkAccount? ==> steps[n].l != l
    requires |Run(world, steps[..k]).log| <= i < |Run(world, steps).log|
    requires Run(world, steps).log[i].FetchAuthorized?
    ensures Run(world, steps).log[i].scope != Some(l)
  {
    assert steps[..|steps|] == steps;
    if k < |steps| {
      var init := steps[..|steps| - 1];
      assert init[..k] == steps[..k];
      StaysStopped(world, init, k, l);
      RunKeeps(world, init);
      var before := Run(world, init);
      StepLater(before, steps[|steps| - 1]);
      if i < |before.log| {
        assert before.log[i] == Run(world, steps).log[i];
        NoFetchAfterUnlink(world, init, k, l, i);
      } else {
        StepLogsLiveLinks(before, steps[|steps| - 1], i, l);
      }
    }
  }

  lemma {:induction false} StaysStopped(world: World, steps: seq<Step>, k: nat, l: Id)
    requires k <= |steps| && LinkStopped(Run(world, steps[..k]).db, l)
    requires forall n :: k <= n < |steps| && steps[n].DoLinkAccount? ==> steps[n].l != l
    ensures LinkStopped(Run(world, steps).db, l)
  {
    if k < |steps| {
      var init := steps[..|steps| - 1];
      assert init[..k] == steps[..k];
      StaysStopped(world, init, k, l);
      StepKeepsLinkStopped(Run(world, init), steps[|steps| - 1], l);
    } else {
      assert steps[..k] == steps;
    }
  }

  /* ---- pairing -------------------------------------------------------- */

  /** In every reachable state the live permits of a row are exactly those its state allows. */
  lemma RowsAndPermitsPair(world: World, steps: seq<Step>, o: Id, p: Id)
    requires Initial(world) && o in Run(world, steps).db.outbox
    requires p in Run(world, steps).db.permits && Run(world, steps).db.permits[p].outbox == o
    ensures var db := Run(world, steps).db;
      && (LivePermit(db.permits[p]) ==>
            && (db.outbox[o].state == Leased <==> db.permits[p].state == Active)
            && (db.outbox[o].state == SubmissionStarted <==> db.permits[p].state == Started)
            && (db.outbox[o].state == Leased || db.outbox[o].state == SubmissionStarted)
            && forall q :: q in db.permits && db.permits[q].outbox == o && LivePermit(db.permits[q]) ==> q == p)
  {
    RunKeeps(world, steps);
    var db := Run(world, steps).db;
    assert Paired(db.permits[p], db.outbox, db.clock);
    if LivePermit(db.permits[p]) { assert Sole(db.permits, o, p); }
  }

  /** A started row has exactly one permit that began, in flight or finished past its deadline. */
  lemma StartedRowHasItsPermit(world: World, steps: seq<Step>, o: Id) returns (p: Id)
    requires Initial(world) && o in Run(world, steps).db.outbox
    requires Run(world, steps).db.outbox[o].state == SubmissionStarted
    ensures var db := Run(world, steps).db;
      && Begun(db.permits, o, p)
      && (db.permits[p].state == Started || db.permits[p].deadline <= db.clock)
      && forall q :: Begun(db.permits, o, q) ==> q == p
  {
    RunKeeps(world, steps);
    var db := Run(world, steps).db;
    p :| Begun(db.permits, o, p);
    assert Paired(db.permits[p], db.outbox, db.clock);
    assert Sole(db.permits, o, p);
  }

  /* ---- progress ------------------------------------------------------- */

  function Rank(state: OutboxState): nat {
    match state
    case Leased => 3
    case Pending => 2
    case SubmissionStarted => 1
    case _ => 0
  }

  /** The lexicographic pair (claims left, rank) as one number. */
  function Measure(r: OutboxRow): int {
    4 * (CLAIM_LIMIT - r.attempts) + Rank(r.state)
  }

  predicate Drops(before: OutboxRow, after: OutboxRow) {
    (after.state == before.state && Measure(after) == Measure(before)) || Measure(after) < Measure(before)
  }

  const FRESH := 34   // the measure of a row nobody has claimed yet

  /** Rows stay and drop, and rows that appear are fresh. */
  predicate AllDrop(before: map<Id, OutboxRow>, after: map<Id, OutboxRow>) {
    && (forall o :: o in before ==> o in after && Drops(before[o], after[o]))
    && (forall o :: o in after && o !in before ==> Measure(after[o]) == FRESH)
  }

  lemma FenceDrops(db: Db, target: Scope, t1: Time, t2: Time)
    ensures AllDrop(db.outbox, Fence(db, target, false, t1, t2).outbox)
  {
  }

  lemma RecoverDrops(db: Db, f: set<Id>, e: set<Id>, t1: Time, t2: Time, t3: Time, t4: Time)
    requires Recover(db, f, e, t1, t2, t3, t4).Some?
    ensures AllDrop(db.outbox, Recover(db, f, e, t1, t2, t3, t4).value.outbox)
  {
    var permits1 := FinishOverdue(db.permits, f, t1);
    var outbox1 := SettleUnknown(db.outbox, permits1, t2);
    assert AllDrop(db.outbox, outbox1);
    assert AllDrop(outbox1, ReturnLeases(outbox1, ExpireOverdue(permits1, e, t3), t4));
  }

  lemma DropLinksDrops(before: map<Id, OutboxRow>, db: Db, gone: set<Id>)
    requires AllDrop(before, db.outbox)
    ensures AllDrop(before, DropLinks(db, gone).outbox)
  {
  }

  lemma CommitsDrop(db: Db, operation: Id, t1: Time, t2: Time, t3: Time)
    ensures CommitInstallation(db, operation, t1, t2, t3).Some? ==>
      AllDrop(db.outbox, CommitInstallation(db, operation, t1, t2, t3).value.outbox)
    ensures CommitLink(db, operation, t1, t2, t3).Some? ==>
      AllDrop(db.outbox, CommitLink(db, operation, t1, t2, t3).value.outbox)
  {
    if operation in db.operations {
      var target := db.operations[operation].target;
      FenceDrops(db, target, t1, t2);
      var fenced := Fence(db, target, false, t1, t2);
      DropLinksDrops(db.outbox, fenced, if target.OfLink? then {target.link} else LinksOf(fenced, target.installation));
    }
  }

  lemma StoreStepDrops(world: World, step: Step)
    requires StoreStep(step) && !step.DoAcquirePermit?
    ensures AllDrop(world.db.outbox, Apply(world, step).db.outbox)
  {
    match step
    case DoDrainInstallation(x, also, op, t1, t2) => FenceDrops(world.db, OfInstallation(x), t1, t2);
    case DoDrainLink(x, l, op, t1, t2) => FenceDrops(world.db, OfLink(l), t1, t2);
    case DoCommitInstallation(op, t1, t2, t3) => CommitsDrop(world.db, op, t1, t2, t3);
    case DoCommitLink(op, t1, t2, t3) => CommitsDrop(world.db, op, t1, t2, t3);
    case DoRecover(f, e, t1, t2, t3, t4) =>
      if Recover(world.db, f, e, t1, t2, t3, t4).Some? { RecoverDrops(world.db, f, e, t1, t2, t3, t4); }
    case DoCreateAlert(o, x, link) =>
    case DoRegister(x) =>
    case DoLinkAccount(l, x) =>
  }

  lemma RowStepDrops(before: map<Id, OutboxRow>, o: Id, r: OutboxRow)
    requires o in before && Drops(before[o], r)
    ensures AllDrop(before, before[o := r])
  {
  }

  /** The row a worker's transaction changes. */
  function RowOfStep(world: World, step: Step): Id
    requires DispatchStep(step)
  {
    if step.WorkerClaim? then step.o
    else
      var pc := Pc(world, step.w);
      if !pc.Idle? && pc.permit in world.db.permits then world.db.permits[pc.permit].outbox else 0
  }

  /** Only this row differs, and it drops. */
  predicate OneRowDrops(before: map<Id, OutboxRow>, after: map<Id, OutboxRow>, o: Id) {
    o in before && o in after && after == before[o := after[o]] && Drops(before[o], after[o])
  }

  lemma ClaimRow(world: World, step: Step)
    requires step.WorkerClaim? && Apply(world, step).db.outbox != world.db.outbox
    ensures OneRowDrops(world.db.outbox, Apply(world, step).db.outbox, RowOfStep(world, step))
  {
  }

  lemma MarkRow(world: World, step: Step)
    requires step.WorkerMark? && Apply(world, step).db.outbox != world.db.outbox
    ensures OneRowDrops(world.db.outbox, Apply(world, step).db.outbox, RowOfStep(world, step))
  {
  }

  lemma AbandonRow(world: World, step: Step)
    requires step.WorkerAbandon? && Apply(world, step).db.outbox != world.db.outbox
    ensures OneRowDrops(world.db.outbox, Apply(world, step).db.outbox, RowOfStep(world, step))
  {
  }

  lemma FinishRow(world: World, step: Step)
    requires step.WorkerFinish? && Apply(world, step).db.outbox != world.db.outbox
    ensures OneRowDrops(world.db.outbox, Apply(world, step).db.outbox, RowOfStep(world, step))
  {
  }

  lemma DispatchStepRow(world: World, step: Step)
    requires DispatchStep(step) && Apply(world, step).db.outbox != world.db.outbox
    ensures OneRowDrops(world.db.outbox, Apply(world, step).db.outbox, RowOfStep(world, step))
  {
    match step
    case WorkerClaim(_, _, _, _, _, _, _, _, _) => ClaimRow(world, step);
    case WorkerMark(_, _, _, _) => MarkRow(world, step);
    case WorkerAbandon(_, _) => AbandonRow(world, step);
    case WorkerFinish(_, _, _) => FinishRow(world, step);
  }

  lemma DispatchStepDrops(world: World, step: Step)
    requires DispatchStep(step) && Apply(world, step).db.outbox != world.db.outbox
    ensures AllDrop(world.db.outbox, Apply(world, step).db.outbox)
  {
    DispatchStepRow(world, step);
    var o := RowOfStep(world, step);
    RowStepDrops(world.db.outbox, o, Apply(world, step).db.outbox[o]);
  }

  /** On every step but acquireDispatchPermit a row keeps its state or comes strictly closer to rest. */
  lemma StepDrops(world: World, step: Step)
    requires !step.DoAcquirePermit?
    ensures AllDrop(world.db.outbox, Apply(world, step).db.outbox)
  {
    if StoreStep(step) {
      StoreStepDrops(world, step);
    } else if DispatchStep(step) {
      if Apply(world, step).db.outbox != world.db.outbox { DispatchStepDrops(world, step); }
    } else {
      QuietStep(world, step);
    }
  }

  /** How often the row `o` changed state in a run. */
  function Changes(world: World, steps: seq<Step>, o: Id): nat {
    if steps == [] then 0
    else
      var init := steps[..|steps| - 1];
      var before, after := Run(world, init), Run(world, steps);
      Changes(world, init, o)
      + (if o in before.db.outbox && o in after.db.outbox && after.db.outbox[o].state != before.db.outbox[o].state then 1 else 0)
  }

  /** Without acquireDispatchPermit every row settles: it changes state at most 34 times, whatever is interleaved. */
  lemma {:induction false} RowSettles(world: World, steps: seq<Step>, o: Id)
    requires Initial(world) && forall i :: 0 <= i < |steps| ==> !steps[i].DoAcquirePermit?
    ensures var end := Run(world, steps);
      Changes(world, steps, o) + (if o in end.db.outbox then Measure(end.db.outbox[o]) else FRESH) <= FRESH
    ensures Changes(world, steps, o) <= FRESH
  {
    RunKeeps(world, steps);
    var end := Run(world, steps);
    if o in end.db.outbox { assert RowFits(end.db.outbox[o], end.db.installations, end.db.links); }
    if steps != [] {
      var init := steps[..|steps| - 1];
      RowSettles(world, init, o);
      RunKeeps(world, init);
      var before := Run(world, init);
      StepDrops(before, steps[|steps| - 1]);
    }
  }

  /** acquireDispatchPermit counts no attempt: leasing a row through it raises the measure. */
  lemma AcquireRaises(db: Db, x: Id, link: Option<Id>, o: Id, p: Id, t1: Time, t2: Time)
    requires AcquirePermit(db, x, link, o, p, t1, t2).Some?
    ensures var after := AcquirePermit(db, x, link, o, p, t1, t2).value;
      Measure(after.outbox[o]) == Measure(db.outbox[o]) + 1
  {
  }
}
