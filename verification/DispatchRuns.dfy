/**
 Whole runs: the database, any number of delivery workers as program counters,
 crashes, lost acknowledgements and the clock, interleaved step by step.
 */
module DispatchRuns {
  import opened Base
  import opened Dispatch
  import opened DispatchInvariant
  import opened DispatchRevocation

  /** Where NotificationDeliveryWorker.runOnce stands; a permit it holds is named by every state but Idle. */
  datatype Worker =
    | Idle
    | Claimed(permit: Id)
    | Abandoning(permit: Id)
    | Marked(permit: Id)
    | TokenRead(permit: Id)
    | Authorized(permit: Id, deadline: Time)
    | Sending(permit: Id, deadline: Time)
    | Finishing(permit: Id, outcome: OutboxState, sent: bool)

  datatype Event =
    | FetchAuthorized(permit: Id, outbox: Id, installation: Id, scope: Option<Id>, at: Time)
    | ProviderSend(permit: Id, outbox: Id, installation: Id, scope: Option<Id>, at: Time)

  datatype World = World(db: Db, workers: map<Id, Worker>, log: seq<Event>)

  /** `acked` is false when a transaction commits but the caller sees a failure. */
  datatype Step =
    | Tick(t: Time)
    | SetGates(gates: Gates)
    | SetEgress(egress: Option<EgressLease>)
    | SetToken(x: Id, live: bool)
    | DoRegister(x: Id)
    | DoLinkAccount(l: Id, x: Id)
    | DoCreateAlert(o: Id, x: Id, link: Option<Id>)
    | DoAcquirePermit(x: Id, link: Option<Id>, o: Id, p: Id, t1: Time, t2: Time)
    | DoDrainInstallation(x: Id, alsoLinks: set<Id>, operation: Id, t1: Time, t2: Time)
    | DoDrainLink(x: Id, l: Id, operation: Id, t1: Time, t2: Time)
    | DoCommitInstallation(operation: Id, t1: Time, t2: Time, t3: Time)
    | DoCommitLink(operation: Id, t1: Time, t2: Time, t3: Time)
    | DoRecover(finishing: set<Id>, expiring: set<Id>, t1: Time, t2: Time, t3: Time, t4: Time)
    | WorkerClaim(w: Id, o: Id, p: Id, owner: Id, generation: nat, t1: Time, t2: Time, t3: Time, acked: bool)
    | WorkerMark(w: Id, t1: Time, t2: Time, acked: bool)
    | WorkerAbandon(w: Id, t1: Time)
    | WorkerReadToken(w: Id, t1: Time, acked: bool)
    | WorkerAuthorize(w: Id, owner: Id, generation: nat, t1: Time, acked: bool)
    | WorkerSend(w: Id)
    | WorkerReceive(w: Id, outcome: OutboxState)
    | WorkerFinish(w: Id, t1: Time, acked: bool)
    | Crash(w: Id)

  /** Transactions that involve no worker. */
  predicate StoreStep(step: Step) {
    || step.DoRegister? || step.DoLinkAccount? || step.DoCreateAlert? || step.DoAcquirePermit?
    || step.DoDrainInstallation? || step.DoDrainLink? || step.DoCommitInstallation? || step.DoCommitLink?
    || step.DoRecover?
  }

  /** Transactions of a worker that may change outbox rows and permits. */
  predicate DispatchStep(step: Step) {
    step.WorkerClaim? || step.WorkerMark? || step.WorkerAbandon? || step.WorkerFinish?
  }

  function Pc(world: World, w: Id): Worker {
    if w in world.workers then world.workers[w] else Idle
  }

  function At(world: World, w: Id, pc: Worker): World {
    world.(workers := world.workers[w := pc])
  }

  /** A transaction that rolled back leaves the database as it was. */
  function Committed(world: World, tx: Option<Db>): World {
    if tx.Some? then world.(db := tx.value) else world
  }

  /** A store call may fail here; a failed send is an answer of the provider, of outcome unknown. */
  predicate AtStoreCall(pc: Worker) {
    pc.Claimed? || pc.Marked? || pc.TokenRead? || pc.Authorized? || pc.Finishing?
  }

  /** The catch block before and after the provider may have been written to. */
  function Failed(pc: Worker): Worker
    requires AtStoreCall(pc)
  {
    match pc
    case Claimed(p) => Abandoning(p)
    case Marked(p) => Finishing(p, ProviderRejected, false)
    case TokenRead(p) => Finishing(p, ProviderRejected, false)
    case Authorized(p, _) => Finishing(p, ProviderRejected, false)
    case Finishing(p, _, sent) => Finishing(p, if sent then OutcomeUnknown else ProviderRejected, sent)
  }

  function Apply(world: World, step: Step): World {
    var db := world.db;
    match step
    case Tick(t) => if db.clock <= t then world.(db := db.(clock := t)) else world
    case SetGates(gates) => world.(db := db.(gates := gates))
    case SetEgress(egress) => world.(db := db.(egress := egress))
    case SetToken(x, live) => if x in db.tokens then world.(db := db.(tokens := db.tokens[x := live])) else world
    case DoRegister(x) => Committed(world, Register(db, x))
    case DoLinkAccount(l, x) => Committed(world, LinkAccount(db, l, x))
    case DoCreateAlert(o, x, link) => Committed(world, CreateAlert(db, o, x, link))
    case DoAcquirePermit(x, link, o, p, t1, t2) => Committed(world, AcquirePermit(db, x, link, o, p, t1, t2))
    case DoDrainInstallation(x, also, op, t1, t2) => Committed(world, DrainInstallation(db, x, also, op, t1, t2))
    case DoDrainLink(x, l, op, t1, t2) => Committed(world, DrainLink(db, x, l, op, t1, t2))
    case DoCommitInstallation(op, t1, t2, t3) => Committed(world, CommitInstallation(db, op, t1, t2, t3))
    case DoCommitLink(op, t1, t2, t3) => Committed(world, CommitLink(db, op, t1, t2, t3))
    case DoRecover(f, e, t1, t2, t3, t4) => Committed(world, Recover(db, f, e, t1, t2, t3, t4))
    case WorkerClaim(w, o, p, owner, g, t1, t2, t3, acked) =>
      if !Pc(world, w).Idle? then world
      else
        var tx := ClaimNext(db, o, p, owner, g, t1, t2, t3);
        if tx.Some? && acked then At(world.(db := tx.value), w, Claimed(p)) else Committed(world, tx)
    case WorkerMark(w, t1, t2, acked) =>
      var pc := Pc(world, w);
      if !pc.Claimed? then world
      else
        var tx := MarkStarted(db, pc.permit, t1, t2);
        At(Committed(world, tx), w, if tx.Some? && acked then Marked(pc.permit) else Failed(pc))
    case WorkerAbandon(w, t1) =>
      var pc := Pc(world, w);
      if !pc.Abandoning? then world
      else At(Committed(world, Abandon(db, pc.permit, t1)), w, Idle)
    case WorkerReadToken(w, t1, acked) =>
      var pc := Pc(world, w);
      if !pc.Marked? || t1 < db.clock then world
      else At(world.(db := db.(clock := t1)), w,
              if ProviderRow(db, pc.permit, t1) && acked then TokenRead(pc.permit) else Failed(pc))
    case WorkerAuthorize(w, owner, g, t1, acked) =>
      var pc := Pc(world, w);
      if !pc.TokenRead? || t1 < db.clock then world
      else if !MayFetch(db, pc.permit, owner, g, t1) then At(world.(db := db.(clock := t1)), w, Failed(pc))
      else
        var q := db.permits[pc.permit];
        At(world.(db := db.(clock := t1),
                  log := world.log + [FetchAuthorized(pc.permit, q.outbox, q.installation, q.scope, t1)]),
           w, if acked then Authorized(pc.permit, q.deadline) else Failed(pc))
    case WorkerSend(w) =>
      var pc := Pc(world, w);
      if !pc.Authorized? then world
      else if pc.deadline <= db.clock || pc.permit !in db.permits then At(world, w, Failed(pc))
      else
        var q := db.permits[pc.permit];
        At(world.(log := world.log + [ProviderSend(pc.permit, q.outbox, q.installation, q.scope, db.clock)]),
           w, Sending(pc.permit, pc.deadline))
    case WorkerReceive(w, outcome) =>
      var pc := Pc(world, w);
      if !pc.Sending? || !IsOutcome(outcome) then world
      else At(world, w, Finishing(pc.permit, outcome, true))
    case WorkerFinish(w, t1, acked) =>
      var pc := Pc(world, w);
      if !pc.Finishing? then world
      else
        var tx := Record(db, pc.permit, pc.outcome, t1);
        At(Committed(world, tx), w, if tx.Some? && acked then Idle else Failed(pc))
    case Crash(w) => At(world, w, Idle)
  }

  function Run(world: World, steps: seq<Step>): World {
    if steps == [] then world else Apply(Run(world, steps[..|steps| - 1]), steps[|steps| - 1])
  }

  /** No installation, row or permit yet, no worker running. */
  ghost predicate Initial(world: World) {
    && world.db.installations == map[] && world.db.links == map[] && world.db.tokens == map[]
    && world.db.operations == map[] && world.db.outbox == map[] && world.db.permits == map[]
    && world.workers == map[] && world.log == []
  }

  /* ---- the invariant of the workers ----------------------------------- */

  predicate BeforeSend(pc: Worker) {
    pc.Claimed? || pc.Abandoning? || pc.Marked? || pc.TokenRead? || pc.Authorized? || (pc.Finishing? && !pc.sent)
  }

  predicate MayReachProvider(pc: Worker) {
    pc.Authorized? || pc.Sending?
  }

  ghost predicate SentBy(log: seq<Event>, p: Id) {
    exists i :: 0 <= i < |log| && log[i].ProviderSend? && log[i].permit == p
  }

  /** A worker holds a known permit, has not sent on it before its send, and is outlived by its deadline. */
  ghost predicate Holds(pc: Worker, permits: map<Id, PermitRow>, log: seq<Event>, clock: Time) {
    !pc.Idle? ==>
      && pc.permit in permits
      && (BeforeSend(pc) ==> !SentBy(log, pc.permit))
      && (MayReachProvider(pc) ==>
            && permits[pc.permit].deadline == pc.deadline
            && permits[pc.permit].state != Active && permits[pc.permit].state != Expired
            && (permits[pc.permit].state == Started || pc.deadline <= clock))
  }

  ghost predicate AllWorkersHold(world: World) {
    forall w :: w in world.workers ==> Holds(world.workers[w], world.db.permits, world.log, world.db.clock)
  }

  ghost predicate NoSharedPermit(workers: map<Id, Worker>) {
    forall v, w :: v in workers && w in workers && v != w && !workers[v].Idle? && !workers[w].Idle?
      ==> workers[v].permit != workers[w].permit
  }

  /** A recorded send belongs to a permit that was started. */
  ghost predicate Recorded(e: Event, permits: map<Id, PermitRow>) {
    e.ProviderSend? ==>
      && e.permit in permits
      && e.outbox == permits[e.permit].outbox
      && e.installation == permits[e.permit].installation
      && (permits[e.permit].state == Started || permits[e.permit].state == Finished)
  }

  ghost predicate AllRecorded(log: seq<Event>, permits: map<Id, PermitRow>) {
    forall i :: 0 <= i < |log| ==> Recorded(log[i], permits)
  }

  ghost predicate SendsDistinct(log: seq<Event>) {
    forall i, j :: 0 <= i < j < |log| && log[i].ProviderSend? && log[j].ProviderSend? ==> log[i].permit != log[j].permit
  }

  ghost predicate WorldInv(world: World) {
    && Inv(world.db)
    && AllWorkersHold(world)
    && NoSharedPermit(world.workers)
    && AllRecorded(world.log, world.db.permits)
    && SendsDistinct(world.log)
  }

  /* ---- every step keeps it -------------------------------------------- */

  lemma SentByGrows(log: seq<Event>, e: Event, p: Id)
    ensures SentBy(log + [e], p) ==> SentBy(log, p) || (e.ProviderSend? && e.permit == p)
  {
    if SentBy(log + [e], p) {
      var i :| 0 <= i < |log + [e]| && (log + [e])[i].ProviderSend? && (log + [e])[i].permit == p;
      if i < |log| { assert log[i].permit == p; }
    }
  }

  lemma HoldsForward(pc: Worker, before: Db, after: Db, log: seq<Event>)
    requires Forward(before, after, {})
    requires Holds(pc, before.permits, log, before.clock)
    ensures Holds(pc, after.permits, log, after.clock)
  {
    if !pc.Idle? {
      assert PermitForward(before.permits[pc.permit], after.permits[pc.permit], false, after.clock);
    }
  }

  lemma RecordedForward(before: Db, after: Db, own: set<Id>, log: seq<Event>)
    requires Forward(before, after, own) && AllRecorded(log, before.permits)
    ensures AllRecorded(log, after.permits)
  {
    forall i | 0 <= i < |log|
      ensures Recorded(log[i], after.permits)
    {
      assert Recorded(log[i], before.permits);
      if log[i].ProviderSend? {
        assert PermitForward(before.permits[log[i].permit], after.permits[log[i].permit], log[i].permit in own, after.clock);
      }
    }
  }

  /** A transaction of anyone: the workers keep what they hold. */
  lemma DbStepKeeps(world: World, after: Db)
    requires WorldInv(world) && Inv(after) && Forward(world.db, after, {})
    ensures WorldInv(world.(db := after))
  {
    forall w | w in world.workers
      ensures Holds(world.workers[w], after.permits, world.log, after.clock)
    {
      HoldsForward(world.workers[w], world.db, after, world.log);
    }
    RecordedForward(world.db, after, {}, world.log);
  }

  /** A worker moves on while holding the permit it held, or lets go of it. */
  lemma PcKeeps(world: World, w: Id, pc: Worker)
    requires WorldInv(world)
    requires Holds(pc, world.db.permits, world.log, world.db.clock)
    requires !pc.Idle? ==> !Pc(world, w).Idle? && Pc(world, w).permit == pc.permit
    ensures WorldInv(At(world, w, pc))
  {
    var after := At(world, w, pc);
    forall v | v in after.workers
      ensures Holds(after.workers[v], after.db.permits, after.log, after.db.clock)
    {
      if v != w { assert Holds(world.workers[v], world.db.permits, world.log, world.db.clock); }
    }
  }

  lemma FailedHolds(world: World, w: Id)
    requires WorldInv(world) && AtStoreCall(Pc(world, w))
    ensures Holds(Failed(Pc(world, w)), world.db.permits, world.log, world.db.clock)
  {
    assert Holds(Pc(world, w), world.db.permits, world.log, world.db.clock);
  }

  lemma FailKeeps(world: World, w: Id)
    requires WorldInv(world) && AtStoreCall(Pc(world, w))
    ensures WorldInv(At(world, w, Failed(Pc(world, w))))
  {
    FailedHolds(world, w);
    PcKeeps(world, w, Failed(Pc(world, w)));
  }

  lemma NewPermitIsUnknown(world: World, p: Id)
    requires WorldInv(world) && p !in world.db.permits
    ensures !SentBy(world.log, p)
    ensures forall v :: v in world.workers && !world.workers[v].Idle? ==> world.workers[v].permit != p
  {
    forall v | v in world.workers && !world.workers[v].Idle?
      ensures world.workers[v].permit != p
    {
      assert Holds(world.workers[v], world.db.permits, world.log, world.db.clock);
    }
  }

  lemma TakeKeeps(world: World, w: Id, p: Id)
    requires WorldInv(world) && p in world.db.permits && !SentBy(world.log, p)
    requires forall v :: v in world.workers && !world.workers[v].Idle? ==> world.workers[v].permit != p
    ensures WorldInv(At(world, w, Claimed(p)))
  {
    var after := At(world, w, Claimed(p));
    forall v | v in after.workers
      ensures Holds(after.workers[v], after.db.permits, after.log, after.db.clock)
    {
      if v != w { assert Holds(world.workers[v], world.db.permits, world.log, world.db.clock); }
    }
  }

  lemma ClaimStepKeeps(world: World, w: Id, o: Id, p: Id, owner: Id, g: nat, t1: Time, t2: Time, t3: Time, acked: bool)
    requires WorldInv(world)
    ensures WorldInv(Apply(world, WorkerClaim(w, o, p, owner, g, t1, t2, t3, acked)))
  {
    var tx := ClaimNext(world.db, o, p, owner, g, t1, t2, t3);
    if Pc(world, w).Idle? && tx.Some? {
      ClaimKeeps(world.db, o, p, owner, g, t1, t2, t3);
      DbStepKeeps(world, tx.value);
      if acked {
        NewPermitIsUnknown(world, p);
        TakeKeeps(world.(db := tx.value), w, p);
      }
    }
  }

  lemma MarkStepKeeps(world: World, w: Id, t1: Time, t2: Time, acked: bool)
    requires WorldInv(world)
    ensures WorldInv(Apply(world, WorkerMark(w, t1, t2, acked)))
  {
    var pc := Pc(world, w);
    if pc.Claimed? {
      var tx := MarkStarted(world.db, pc.permit, t1, t2);
      assert Holds(pc, world.db.permits, world.log, world.db.clock);
      if tx.Some? {
        MarkKeeps(world.db, pc.permit, t1, t2);
        DbStepKeeps(world, tx.value);
        var mid := world.(db := tx.value);
        if acked { PcKeeps(mid, w, Marked(pc.permit)); } else { FailKeeps(mid, w); }
      } else {
        FailKeeps(world, w);
      }
    }
  }

  lemma ClockStepKeeps(world: World, t: Time)
    requires WorldInv(world) && world.db.clock <= t
    ensures WorldInv(world.(db := world.db.(clock := t)))
  {
    SweepKeeps(world.db, world.db.permits, t);
    SweepForward(world.db, world.db.permits, t);
    DbStepKeeps(world, world.db.(clock := t));
  }

  lemma LogAuthorizationKeeps(world: World, e: Event)
    requires WorldInv(world) && e.FetchAuthorized?
    ensures WorldInv(world.(log := world.log + [e]))
  {
    forall w | w in world.workers
      ensures Holds(world.workers[w], world.db.permits, world.log + [e], world.db.clock)
    {
      assert Holds(world.workers[w], world.db.permits, world.log, world.db.clock);
      if !world.workers[w].Idle? { SentByGrows(world.log, e, world.workers[w].permit); }
    }
    forall i | 0 <= i < |world.log + [e]|
      ensures Recorded((world.log + [e])[i], world.db.permits)
    {
      if i < |world.log| { assert Recorded(world.log[i], world.db.permits); }
    }
  }

  lemma AuthorizedKeeps(world: World, w: Id)
    requires WorldInv(world) && Pc(world, w).TokenRead?
    requires Pc(world, w).permit in world.db.permits && world.db.permits[Pc(world, w).permit].state == Started
    ensures var p := Pc(world, w).permit;
      WorldInv(At(world, w, Authorized(p, world.db.permits[p].deadline)))
  {
    var p := Pc(world, w).permit;
    assert Holds(Pc(world, w), world.db.permits, world.log, world.db.clock);
    PcKeeps(world, w, Authorized(p, world.db.permits[p].deadline));
  }

  lemma GrantedKeeps(world: World, w: Id, t1: Time, acked: bool)
    requires WorldInv(world) && Pc(world, w).TokenRead?
    requires Pc(world, w).permit in world.db.permits && world.db.permits[Pc(world, w).permit].state == Started
    ensures var p := Pc(world, w).permit;
      var q := world.db.permits[p];
      WorldInv(At(world.(log := world.log + [FetchAuthorized(p, q.outbox, q.installation, q.scope, t1)]), w,
                  if acked then Authorized(p, q.deadline) else Failed(Pc(world, w))))
  {
    var p := Pc(world, w).permit;
    var q := world.db.permits[p];
    var e := FetchAuthorized(p, q.outbox, q.installation, q.scope, t1);
    LogAuthorizationKeeps(world, e);
    var logged := world.(log := world.log + [e]);
    if acked { AuthorizedKeeps(logged, w); } else { FailKeeps(logged, w); }
  }

  lemma AuthorizeStepKeeps(world: World, w: Id, owner: Id, g: nat, t1: Time, acked: bool)
    requires WorldInv(world)
    ensures WorldInv(Apply(world, WorkerAuthorize(w, owner, g, t1, acked)))
  {
    var pc := Pc(world, w);
    if pc.TokenRead? && t1 >= world.db.clock {
      ClockStepKeeps(world, t1);
      var mid := world.(db := world.db.(clock := t1));
      if MayFetch(world.db, pc.permit, owner, g, t1) { GrantedKeeps(mid, w, t1, acked); } else { FailKeeps(mid, w); }
    }
  }

  /** The send itself: its permit is started, and nobody sent on it before. */
  lemma SendStepKeeps(world: World, w: Id)
    requires WorldInv(world)
    ensures WorldInv(Apply(world, WorkerSend(w)))
  {
    var pc := Pc(world, w);
    if pc.Authorized? {
      assert Holds(pc, world.db.permits, world.log, world.db.clock);
      if pc.deadline <= world.db.clock {
        FailKeeps(world, w);
      } else {
        SendKeeps(world, w);
      }
    }
  }

  lemma SendKeeps(world: World, w: Id)
    requires WorldInv(world) && Pc(world, w).Authorized? && Pc(world, w).deadline > world.db.clock
    ensures WorldInv(Apply(world, WorkerSend(w)))
  {
    var pc := Pc(world, w);
    assert Holds(pc, world.db.permits, world.log, world.db.clock);
    var q := world.db.permits[pc.permit];
    var e := ProviderSend(pc.permit, q.outbox, q.installation, q.scope, world.db.clock);
    var log := world.log + [e];
    var after := Apply(world, WorkerSend(w));
    forall v | v in after.workers
      ensures Holds(after.workers[v], world.db.permits, log, world.db.clock)
    {
      if v != w {
        assert Holds(world.workers[v], world.db.permits, world.log, world.db.clock);
        if !world.workers[v].Idle? { SentByGrows(world.log, e, world.workers[v].permit); }
      }
    }
    forall i | 0 <= i < |log|
      ensures Recorded(log[i], world.db.permits)
      ensures i < |world.log| && log[i].ProviderSend? ==> log[i].permit != e.permit
    {
      if i < |world.log| {
        assert Recorded(world.log[i], world.db.permits);
      }
    }
  }

  /** Only the holder finishes a submission before its deadline, and then holds nothing that sends. */
  lemma FinishStepKeeps(world: World, w: Id, t1: Time, acked: bool)
    requires WorldInv(world)
    ensures WorldInv(Apply(world, WorkerFinish(w, t1, acked)))
  {
    var pc := Pc(world, w);
    if pc.Finishing? {
      var tx := Record(world.db, pc.permit, pc.outcome, t1);
      if tx.Some? {
        FinishKeeps(world.db, pc.permit, pc.outcome, pc.outcome == OutcomeUnknown, t1);
        RecordedForward(world.db, tx.value, {pc.permit}, world.log);
        var mid := world.(db := tx.value);
        forall v | v in mid.workers
          ensures Holds(mid.workers[v], mid.db.permits, mid.log, mid.db.clock)
        {
          FinishHolds(world, w, v, t1);
        }
        if acked { PcKeeps(mid, w, Idle); } else { FailKeeps(mid, w); }
      } else {
        FailKeeps(world, w);
      }
    }
  }

  lemma FinishHolds(world: World, w: Id, v: Id, t1: Time)
    requires WorldInv(world) && v in world.workers
    requires Pc(world, w).Finishing?
    requires Record(world.db, Pc(world, w).permit, Pc(world, w).outcome, t1).Some?
    ensures var after := Record(world.db, Pc(world, w).permit, Pc(world, w).outcome, t1).value;
      Holds(world.workers[v], after.permits, world.log, after.clock)
  {
    var pc := world.workers[v];
    assert Holds(pc, world.db.permits, world.log, world.db.clock);
    if v != w && !pc.Idle? {
      assert pc.permit != Pc(world, w).permit;
    }
  }

  lemma AbandonStepKeeps(world: World, w: Id, t1: Time)
    requires WorldInv(world)
    ensures WorldInv(Apply(world, WorkerAbandon(w, t1)))
  {
    var pc := Pc(world, w);
    if pc.Abandoning? {
      var tx := Abandon(world.db, pc.permit, t1);
      if tx.Some? {
        AbandonKeeps(world.db, pc.permit, t1);
        DbStepKeeps(world, tx.value);
      }
      PcKeeps(Committed(world, tx), w, Idle);
    }
  }

  lemma ReadTokenStepKeeps(world: World, w: Id, t1: Time, acked: bool)
    requires WorldInv(world)
    ensures WorldInv(Apply(world, WorkerReadToken(w, t1, acked)))
  {
    var pc := Pc(world, w);
    if pc.Marked? && t1 >= world.db.clock {
      ClockStepKeeps(world, t1);
      var mid := world.(db := world.db.(clock := t1));
      assert Holds(pc, mid.db.permits, mid.log, mid.db.clock);
      if ProviderRow(world.db, pc.permit, t1) && acked { PcKeeps(mid, w, TokenRead(pc.permit)); } else { FailKeeps(mid, w); }
    }
  }

  ghost predicate SameRows(before: Db, after: Db) {
    && after.permits == before.permits && after.outbox == before.outbox
    && after.installations == before.installations && after.links == before.links
  }

  /** Every other step leaves rows, permits and scopes alone. */
  lemma QuietStep(world: World, step: Step)
    requires !StoreStep(step) && !DispatchStep(step)
    ensures SameRows(world.db, Apply(world, step).db)
    ensures world.log <= Apply(world, step).log
  {
    match step
    case Tick(_) =>
    case SetGates(_) =>
    case SetEgress(_) =>
    case SetToken(_, _) =>
    case WorkerReadToken(_, _, _) =>
    case WorkerAuthorize(_, _, _, _, _) =>
    case WorkerSend(_) =>
    case WorkerReceive(_, _) =>
    case Crash(_) =>
  }

  lemma NonWorkerStepLogs(world: World, step: Step)
    requires !step.WorkerAuthorize? && !step.WorkerSend?
    ensures Apply(world, step).log == world.log
  {
  }

  /** Changes to columns that dispatch only reads. */
  lemma UnreadKeeps(world: World, after: Db)
    requires WorldInv(world)
    requires after == world.db.(gates := after.gates, egress := after.egress, tokens := after.tokens)
    ensures WorldInv(world.(db := after))
  {
    assert Inv(after);
    DbStepKeeps(world, after);
  }

  /** The transactions that involve no worker. */
  lemma StoreStepKeeps(world: World, step: Step)
    requires WorldInv(world)
    requires StoreStep(step)
    ensures WorldInv(Apply(world, step))
  {
    var db, after := world.db, Apply(world, step).db;
    if after != db {
      assert Inv(after) && Forward(db, after, {}) by {
        match step
        case DoRegister(x) => RegisterKeeps(db, x);
        case DoLinkAccount(l, x) => LinkAccountKeeps(db, l, x);
        case DoCreateAlert(o, x, link) => CreateAlertKeeps(db, o, x, link);
        case DoAcquirePermit(x, link, o, p, t1, t2) => AcquireKeeps(db, x, link, o, p, t1, t2);
        case DoDrainInstallation(x, also, op, t1, t2) => DrainInstallationKeeps(db, x, also, op, t1, t2);
        case DoDrainLink(x, l, op, t1, t2) => DrainLinkKeeps(db, x, l, op, t1, t2);
        case DoCommitInstallation(op, t1, t2, t3) =>
          CommitInstallationKeeps(db, op, t1, t2, t3);
          CommitInstallationForward(db, op, t1, t2, t3);
        case DoCommitLink(op, t1, t2, t3) =>
          CommitLinkKeeps(db, op, t1, t2, t3);
          CommitLinkForward(db, op, t1, t2, t3);
        case DoRecover(f, e, t1, t2, t3, t4) =>
          RecoverKeeps(db, f, e, t1, t2, t3, t4);
          RecoverForward(db, f, e, t1, t2, t3, t4);
      }
      DbStepKeeps(world, after);
    }
  }

  lemma StepKeeps(world: World, step: Step)
    requires WorldInv(world)
    ensures WorldInv(Apply(world, step))
  {
    match step
    case Tick(t) => if world.db.clock <= t { ClockStepKeeps(world, t); }
    case SetGates(gates) => UnreadKeeps(world, world.db.(gates := gates));
    case SetEgress(egress) => UnreadKeeps(world, world.db.(egress := egress));
    case SetToken(x, live) => if x in world.db.tokens { UnreadKeeps(world, world.db.(tokens := world.db.tokens[x := live])); }
    case WorkerClaim(w, o, p, owner, g, t1, t2, t3, acked) => ClaimStepKeeps(world, w, o, p, owner, g, t1, t2, t3, acked);
    case WorkerMark(w, t1, t2, acked) => MarkStepKeeps(world, w, t1, t2, acked);
    case WorkerAbandon(w, t1) => AbandonStepKeeps(world, w, t1);
    case WorkerReadToken(w, t1, acked) => ReadTokenStepKeeps(world, w, t1, acked);
    case WorkerAuthorize(w, owner, g, t1, acked) => AuthorizeStepKeeps(world, w, owner, g, t1, acked);
    case WorkerSend(w) => SendStepKeeps(world, w);
    case WorkerReceive(w, outcome) =>
      if Pc(world, w).Sending? && IsOutcome(outcome) {
        assert Holds(Pc(world, w), world.db.permits, world.log, world.db.clock);
        PcKeeps(world, w, Finishing(Pc(world, w).permit, outcome, true));
      }
    case WorkerFinish(w, t1, acked) => FinishStepKeeps(world, w, t1, acked);
    case Crash(w) => PcKeeps(world, w, Idle);
    case _ => StoreStepKeeps(world, step);
  }

  lemma {:induction false} RunKeeps(world: World, steps: seq<Step>)
    requires Initial(world)
    ensures WorldInv(Run(world, steps))
  {
    if steps == [] {
    } else {
      RunKeeps(world, steps[..|steps| - 1]);
      StepKeeps(Run(world, steps[..|steps| - 1]), steps[|steps| - 1]);
    }
  }
}
