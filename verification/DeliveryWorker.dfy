/**
 NotificationDeliveryWorker.runOnce with its flags and its catch block. What stores and
 provider answer is left open (`*`); for every path of program counters it can take there
 is a run of the whole system, from an empty service, that takes a worker along it. */
module DeliveryWorker {
  import opened Base
  import opened Dispatch
  import opened DispatchRuns

  /** The moves the transition system gives a worker; Idle is also where a crash leads. */
  predicate Moves(a: Worker, b: Worker) {
    || a == b || b.Idle?
    || match a
       case Idle => b.Claimed?
       case Claimed(p) => b == Marked(p) || b == Abandoning(p)
       case Abandoning(_) => false
       case Marked(p) => b == TokenRead(p) || b == Finishing(p, ProviderRejected, false)
       case TokenRead(p) => (b.Authorized? && b.permit == p) || b == Finishing(p, ProviderRejected, false)
       case Authorized(p, d) => b == Sending(p, d) || b == Finishing(p, ProviderRejected, false)
       case Sending(p, _) => b.Finishing? && b.permit == p && b.sent && IsOutcome(b.outcome)
       case Finishing(p, _, sent) => b == Finishing(p, if sent then OutcomeUnknown else ProviderRejected, sent)
  }

  /** Every step moves every worker this way, or not at all. */
  lemma StepMoves(world: World, step: Step, w: Id)
    ensures Moves(Pc(world, w), Pc(Apply(world, step), w))
  {
    if StoreStep(step) { StoreStepKeepsWorkers(world, step); }
  }

  lemma StoreStepKeepsWorkers(world: World, step: Step)
    requires StoreStep(step)
    ensures Apply(world, step).workers == world.workers
  {
  }

  /* ---- runs of the transition system that follow a path ----------------------------- */

  /** The counters worker `w` goes through in a run, where a step may leave it where it is. */
  ghost predicate Follows(world: World, steps: seq<Step>, w: Id, path: seq<Worker>)
    decreases |steps|
  {
    if steps == [] then path == [Pc(world, w)]
    else
      var init := steps[..|steps| - 1];
      && path != [] && path[|path| - 1] == Pc(Run(world, steps), w)
      && (Follows(world, init, w, path) || (|path| > 1 && Follows(world, init, w, path[..|path| - 1])))
  }

  lemma FollowsMore(world: World, steps: seq<Step>, w: Id, path: seq<Worker>, step: Step)
    requires Follows(world, steps, w, path)
    ensures Run(world, steps + [step]) == Apply(Run(world, steps), step)
    ensures Follows(world, steps + [step], w, path + [Pc(Apply(Run(world, steps), step), w)])
    ensures Pc(Apply(Run(world, steps), step), w) == Pc(Run(world, steps), w) ==> Follows(world, steps + [step], w, path)
  {
    var pc := Pc(Apply(Run(world, steps), step), w);
    assert (steps + [step])[..|steps|] == steps;
    assert (path + [pc])[..|path|] == path;
    assert path != [] && path[|path| - 1] == Pc(Run(world, steps), w);
  }

  /** Some run of the whole system, from the start, takes worker 0 along the path. */
  ghost predicate Path(path: seq<Worker>) {
    exists world: World, steps: seq<Step> :: Initial(world) && Follows(world, steps, 0, path)
  }

  /** The stage on which worker 0 plays: one installation, one alert, a held egress lease. */
  const OPEN := Gates(true, true, true, true)
  const ROW := OutboxRow(0, None, None, None, 0, Pending, None, 0)

  function Permit(deadline: Time, state: PermitState): PermitRow {
    PermitRow(0, 0, None, None, None, 0, state, deadline - PROVIDER_WINDOW + PERMIT_LIFETIME, deadline)
  }

  function ClaimTime(deadline: Time): Time {
    deadline - PROVIDER_WINDOW
  }

  ghost predicate OnStage(db: Db, deadline: Time) {
    && db.clock == ClaimTime(deadline) && db.gates == OPEN && db.egress == Some(EgressLease(0, 0, deadline))
    && db.installations == map[0 := Installation(Live, 0)] && db.tokens == map[0 := true]
  }

  /** What the rows are while worker 0, with this permit and deadline, stands at `pc`. */
  ghost predicate Scene(v: World, pc: Worker, permit: Id, deadline: Time) {
    && Pc(v, 0) == pc
    && match pc
       case Idle => OnStage(v.db, deadline) && v.db.permits == map[] && v.db.outbox == map[0 := ROW]
       case Claimed(p) =>
         && p == permit && OnStage(v.db, deadline) && v.db.permits == map[p := Permit(deadline, Active)]
         && v.db.outbox == map[0 := ROW.(state := Leased, leaseExpiresAt := Some(ClaimTime(deadline) + PERMIT_LIFETIME), attempts := 1)]
       case Abandoning(p) => p == permit
       case Finishing(p, _, _) => p == permit
       case _ =>
         && pc.permit == permit && OnStage(v.db, deadline) && v.db.permits == map[pc.permit := Permit(deadline, Started)]
         && v.db.outbox == map[0 := ROW.(
              state := SubmissionStarted, leaseExpiresAt := Some(ClaimTime(deadline) + PERMIT_LIFETIME), attempts := 1)]
         && (MayReachProvider(pc) ==> pc.deadline == deadline)
  }

  /** A run takes worker 0 along the path and leaves the rows as the scene of its last counter. */
  ghost predicate Staged(path: seq<Worker>, permit: Id, deadline: Time) {
    path != [] && exists world: World, steps: seq<Step> ::
      Initial(world) && Follows(world, steps, 0, path) && Scene(Run(world, steps), path[|path| - 1], permit, deadline)
  }

  /** The moves runOnce makes with one claim. */
  predicate OwnMove(a: Worker, b: Worker, permit: Id, deadline: Time) {
    match a
    case Idle => b == Claimed(permit)
    case Claimed(p) => b == Marked(p) || b == Abandoning(p)
    case Marked(p) => b == TokenRead(p) || b == Finishing(p, ProviderRejected, false)
    case TokenRead(p) => b == Authorized(p, deadline) || b == Finishing(p, ProviderRejected, false)
    case Authorized(p, d) => b == Sending(p, d) || b == Finishing(p, ProviderRejected, false)
    case Sending(p, _) => b.Finishing? && b.permit == p && b.sent && IsOutcome(b.outcome)
    case Finishing(p, _, sent) => b == Finishing(p, if sent then OutcomeUnknown else ProviderRejected, sent)
    case Abandoning(_) => false
  }

  /** The step that makes the move, when the stores answer that way. */
  function StepFor(a: Worker, b: Worker, permit: Id, deadline: Time): Step {
    var t := ClaimTime(deadline);
    match a
    case Idle => WorkerClaim(0, 0, permit, 0, 0, t, t, t, true)
    case Claimed(_) => WorkerMark(0, t, t, b.Marked?)
    case Marked(_) => WorkerReadToken(0, t, b.TokenRead?)
    case TokenRead(_) => WorkerAuthorize(0, 0, 0, t, b.Authorized?)
    case Authorized(_, _) => WorkerSend(0)
    case Sending(_, _) => WorkerReceive(0, if b.Finishing? then b.outcome else OutcomeUnknown)
    case _ => WorkerFinish(0, t, false)
  }

  lemma ClaimMove(v: World, permit: Id, deadline: Time)
    requires Scene(v, Idle, permit, deadline)
    ensures Scene(Apply(v, StepFor(Idle, Claimed(permit), permit, deadline)), Claimed(permit), permit, deadline)
  {
    var t := ClaimTime(deadline);
    assert Claimable(v.db, 0);
    assert v.db.permits[permit := Permit(deadline, Active)] == map[permit := Permit(deadline, Active)];
  }

  lemma MarkMove(v: World, b: Worker, permit: Id, deadline: Time)
    requires Scene(v, Claimed(permit), permit, deadline) && (b == Marked(permit) || b == Abandoning(permit))
    ensures Scene(Apply(v, StepFor(Claimed(permit), b, permit, deadline)), b, permit, deadline)
  {
    var t := ClaimTime(deadline);
    assert MarkStarted(v.db, permit, t, t).Some?;
  }

  lemma TokenMove(v: World, b: Worker, permit: Id, deadline: Time)
    requires Scene(v, Marked(permit), permit, deadline) && (b == TokenRead(permit) || b == Finishing(permit, ProviderRejected, false))
    ensures Scene(Apply(v, StepFor(Marked(permit), b, permit, deadline)), b, permit, deadline)
  {
    assert ProviderRow(v.db, permit, ClaimTime(deadline));
  }

  lemma AuthorizeMove(v: World, b: Worker, permit: Id, deadline: Time)
    requires Scene(v, TokenRead(permit), permit, deadline)
    requires b == Authorized(permit, deadline) || b == Finishing(permit, ProviderRejected, false)
    ensures Scene(Apply(v, StepFor(TokenRead(permit), b, permit, deadline)), b, permit, deadline)
  {
    assert MayFetch(v.db, permit, 0, 0, ClaimTime(deadline));
  }

  lemma SendMove(v: World, permit: Id, deadline: Time)
    requires Scene(v, Authorized(permit, deadline), permit, deadline)
    ensures Scene(Apply(v, WorkerSend(0)), Sending(permit, deadline), permit, deadline)
    ensures Pc(Apply(v, Tick(deadline)), 0) == Authorized(permit, deadline)
    ensures Scene(Apply(Apply(v, Tick(deadline)), WorkerSend(0)), Finishing(permit, ProviderRejected, false), permit, deadline)
  {
  }

  lemma LastMoves(v: World, a: Worker, b: Worker, permit: Id, deadline: Time)
    requires (a.Sending? || a.Finishing?) && Scene(v, a, permit, deadline) && OwnMove(a, b, permit, deadline)
    ensures Scene(Apply(v, StepFor(a, b, permit, deadline)), b, permit, deadline)
  {
  }

  /** On its scene every move of runOnce is a step of the system; only a missed deadline needs the clock to move first. */
  lemma MoveIsStep(v: World, a: Worker, b: Worker, permit: Id, deadline: Time)
    requires Scene(v, a, permit, deadline) && OwnMove(a, b, permit, deadline)
    ensures !(a.Authorized? && b.Finishing?) ==> Scene(Apply(v, StepFor(a, b, permit, deadline)), b, permit, deadline)
    ensures a.Authorized? && b.Finishing? ==>
      && Pc(Apply(v, Tick(deadline)), 0) == a
      && Scene(Apply(Apply(v, Tick(deadline)), WorkerSend(0)), b, permit, deadline)
  {
    match a
    case Idle => ClaimMove(v, permit, deadline);
    case Claimed(_) => MarkMove(v, b, permit, deadline);
    case Marked(_) => TokenMove(v, b, permit, deadline);
    case TokenRead(_) => AuthorizeMove(v, b, permit, deadline);
    case Authorized(_, _) => SendMove(v, permit, deadline);
    case Sending(_, _) => LastMoves(v, a, b, permit, deadline);
    case Finishing(_, _, _) => LastMoves(v, a, b, permit, deadline);
  }

  lemma Witness(world: World, steps: seq<Step>, path: seq<Worker>, permit: Id, deadline: Time)
    requires path != [] && Initial(world) && Follows(world, steps, 0, path)
    requires Scene(Run(world, steps), path[|path| - 1], permit, deadline)
    ensures Staged(path, permit, deadline) && Path(path)
  {
  }

  lemma StagedMore(path: seq<Worker>, b: Worker, permit: Id, deadline: Time)
    requires Staged(path, permit, deadline) && OwnMove(path[|path| - 1], b, permit, deadline)
    ensures Staged(path + [b], permit, deadline) && Path(path + [b])
  {
    var world: World, steps: seq<Step> :|
      Initial(world) && Follows(world, steps, 0, path) && Scene(Run(world, steps), path[|path| - 1], permit, deadline);
    Played(world, steps, path, b, permit, deadline);
  }

  lemma Played(world: World, steps: seq<Step>, path: seq<Worker>, b: Worker, permit: Id, deadline: Time)
    requires path != [] && Initial(world) && Follows(world, steps, 0, path)
    requires Scene(Run(world, steps), path[|path| - 1], permit, deadline) && OwnMove(path[|path| - 1], b, permit, deadline)
    ensures Staged(path + [b], permit, deadline) && Path(path + [b])
  {
    var a := path[|path| - 1];
    MoveIsStep(Run(world, steps), a, b, permit, deadline);
    if a.Authorized? && b.Finishing? {
      FollowsMore(world, steps, 0, path, Tick(deadline));
      FollowsMore(world, steps + [Tick(deadline)], 0, path, WorkerSend(0));
      Witness(world, steps + [Tick(deadline)] + [WorkerSend(0)], path + [b], permit, deadline);
    } else {
      var step := StepFor(a, b, permit, deadline);
      FollowsMore(world, steps, 0, path, step);
      Witness(world, steps + [step], path + [b], permit, deadline);
    }
  }

  const EMPTY_DB := Db(0, OPEN, None, map[], map[], map[], map[], map[], map[])

  /** Every stage can be reached from an empty service. */
  lemma StageReached(permit: Id, deadline: Time)
    ensures Staged([Idle], permit, deadline) && Path([Idle])
  {
    var w0 := World(EMPTY_DB.(clock := ClaimTime(deadline)), map[], []);
    assert Follows(w0, [], 0, [Idle]);
    FollowsMore(w0, [], 0, [Idle], SetEgress(Some(EgressLease(0, 0, deadline))));
    var s1 := [] + [SetEgress(Some(EgressLease(0, 0, deadline)))];
    FollowsMore(w0, s1, 0, [Idle], DoRegister(0));
    var s2 := s1 + [DoRegister(0)];
    FollowsMore(w0, s2, 0, [Idle], DoCreateAlert(0, 0, None));
    var s3 := s2 + [DoCreateAlert(0, 0, None)];
    assert Follows(w0, s3, 0, [Idle]);
    assert Scene(Run(w0, s3), Idle, permit, deadline);
  }

  /** The counters of one runOnce, from Idle. */
  predicate OneRun(path: seq<Worker>, permit: Id, deadline: Time) {
    path != [] && path[0] == Idle && forall i :: 0 <= i < |path| - 1 ==> OwnMove(path[i], path[i + 1], permit, deadline)
  }

  /** Every sequence of moves of runOnce is played by some run of the system. */
  lemma {:induction false} OneRunIsPath(path: seq<Worker>, permit: Id, deadline: Time)
    requires OneRun(path, permit, deadline)
    ensures Staged(path, permit, deadline) && Path(path)
  {
    if |path| == 1 {
      StageReached(permit, deadline);
      assert path == [Idle];
    } else {
      var init := path[..|path| - 1];
      OneRunIsPath(init, permit, deadline);
      StagedMore(init, path[|path| - 1], permit, deadline);
      assert init + [path[|path| - 1]] == path;
    }
  }

  predicate Sends(path: seq<Worker>, i: nat) {
    i < |path| && path[i].Sending?
  }

  ghost predicate AtMostOneSending(path: seq<Worker>) {
    forall i: nat, j: nat :: Sends(path, i) && Sends(path, j) ==> i == j
  }

  ghost predicate NoneSending(path: seq<Worker>) {
    forall i: nat :: !Sends(path, i)
  }

  lemma Extends(path: seq<Worker>, pc: Worker, permit: Id, deadline: Time)
    requires OneRun(path, permit, deadline) && OwnMove(path[|path| - 1], pc, permit, deadline)
    ensures OneRun(path + [pc], permit, deadline)
    ensures NoneSending(path) && !pc.Sending? ==> NoneSending(path + [pc])
    ensures AtMostOneSending(path) && (pc.Sending? ==> NoneSending(path)) ==> AtMostOneSending(path + [pc])
  {
    var after := path + [pc];
    assert forall i: nat :: i < |path| ==> (Sends(after, i) <==> Sends(path, i));
    forall i | 0 <= i < |after| - 1
      ensures OwnMove(after[i], after[i + 1], permit, deadline)
    {
      if i < |path| - 1 { assert OwnMove(path[i], path[i + 1], permit, deadline); }
    }
  }

  /** Why the try block ended early. */
  datatype Failure = Revoked | DeadlinePassed | OtherFailure

  datatype Attempt = Attempt(path: seq<Worker>, failure: Option<Failure>, marked: bool, writePossible: bool)

  /** What the try block leaves for the catch block. */
  ghost predicate AttemptFits(a: Attempt, permit: Id, deadline: Time) {
    && OneRun(a.path, permit, deadline) && AtMostOneSending(a.path)
    && var last := a.path[|a.path| - 1];
    && (a.failure.None? ==> last.Finishing? && last.permit == permit)
    && (a.failure.Some? && last.Finishing? ==> a.failure.value == OtherFailure)
    && (a.failure.Some? && !a.marked ==> last == Claimed(permit) && !a.writePossible)
    && (a.failure.Some? && a.marked && !a.writePossible ==>
          last == Marked(permit) || last == TokenRead(permit) || (last.Authorized? && last.permit == permit)
          || last == Finishing(permit, ProviderRejected, false))
    && (a.failure.Some? && a.writePossible ==>
          (last.Sending? && last.permit == permit) || (last.Finishing? && last.permit == permit && last.sent))
  }

  /** The try block; `deadline` is what authorizeProviderFetch returned. */
  method Try(permit: Id, deadline: Time, now: Time) returns (a: Attempt)
    ensures AttemptFits(a, permit, deadline) && |a.path| > 1 && a.path[1] == Claimed(permit)
    ensures deadline <= now ==> NoneSending(a.path)
  {
    var path: seq<Worker> := [Idle];
    Extends(path, Claimed(permit), permit, deadline);
    path := path + [Claimed(permit)];
    if * {
      return Attempt(path, Some(OtherFailure), false, false);
    }
    Extends(path, Marked(permit), permit, deadline);
    path := path + [Marked(permit)];
    var revoked: bool := *;
    if * {
      return Attempt(path, Some(if revoked then Revoked else OtherFailure), true, false);
    }
    Extends(path, TokenRead(permit), permit, deadline);
    path := path + [TokenRead(permit)];
    if * {
      return Attempt(path, Some(if revoked then Revoked else OtherFailure), true, false);
    }
    Extends(path, Authorized(permit, deadline), permit, deadline);
    path := path + [Authorized(permit, deadline)];
    if deadline <= now {
      Extends(path, Finishing(permit, ProviderRejected, false), permit, deadline);
      path := path + [Finishing(permit, ProviderRejected, false)];
      if * {
        return Attempt(path, Some(OtherFailure), true, false);
      }
      return Attempt(path, None, true, false);
    }
    Extends(path, Sending(permit, deadline), permit, deadline);
    path := path + [Sending(permit, deadline)];
    var late: bool := *;
    if * {
      return Attempt(path, Some(if late then DeadlinePassed else OtherFailure), true, true);
    }
    var accepted: bool := *;
    var outcome := if accepted then ProviderAccepted else ProviderRejected;
    Extends(path, Finishing(permit, outcome, true), permit, deadline);
    path := path + [Finishing(permit, outcome, true)];
    if * {
      return Attempt(path, Some(OtherFailure), true, true);
    }
    return Attempt(path, None, true, true);
  }

  /** The catch block: abandon before the mark; after it, unknown exactly when the provider may have been written to and did not say it was too late. */
  method Catch(a: Attempt, permit: Id, deadline: Time) returns (recorded: Option<OutboxState>, path: seq<Worker>)
    requires AttemptFits(a, permit, deadline) && a.failure.Some?
    ensures OneRun(path, permit, deadline) && AtMostOneSending(path) && |path| == |a.path| + 1 && path[..|a.path|] == a.path
    ensures recorded ==
      if !a.marked then None
      else if a.writePossible && a.failure.value == OtherFailure then Some(OutcomeUnknown) else Some(ProviderRejected)
    ensures path[|a.path|] ==
      if !a.marked then Abandoning(permit) else Finishing(permit, recorded.value, a.writePossible)
  {
    path := a.path;
    if !a.marked {
      Extends(path, Abandoning(permit), permit, deadline);
      return None, path + [Abandoning(permit)];
    }
    if a.failure.value == Revoked {
      recorded := Some(ProviderRejected);
    } else if a.failure.value == DeadlinePassed {
      recorded := Some(ProviderRejected);
    } else if !a.writePossible {
      recorded := Some(ProviderRejected);
    } else {
      recorded := Some(OutcomeUnknown);
    }
    Extends(path, Finishing(permit, recorded.value, a.writePossible), permit, deadline);
    path := path + [Finishing(permit, recorded.value, a.writePossible)];
  }

  const DISPATCH_RECOVERY_INTERVAL_MS := 10_000

  /* ---- when recovery runs ------------------------------------------------------------- */

  /** recoverExpiredDispatches was called, or requestRecovery. */
  datatype Call = Recovered(at: Time) | Requested

  /** From when on the next run recovers. */
  function DueAt(calls: seq<Call>): Time {
    if calls == [] || calls[|calls| - 1].Requested? then 0 else calls[|calls| - 1].at + DISPATCH_RECOVERY_INTERVAL_MS
  }

  /** Every recovery was due when it ran. */
  ghost predicate Timely(calls: seq<Call>) {
    forall i :: 0 <= i < |calls| && calls[i].Recovered? ==> DueAt(calls[..i]) <= calls[i].at
  }

  /** Two recoveries with no request between them are at least the interval apart. */
  lemma {:induction false} RecoveriesSpaced(calls: seq<Call>, i: nat, j: nat)
    requires Timely(calls) && i < j < |calls|
    requires forall k :: i <= k <= j ==> calls[k].Recovered?
    ensures calls[i].at + 10_000 <= calls[j].at
    decreases j
  {
    assert DueAt(calls[..j]) == calls[j - 1].at + DISPATCH_RECOVERY_INTERVAL_MS;
    if i < j - 1 { RecoveriesSpaced(calls, i, j - 1); }
  }

  /** A recovery is due at once at the start and after a request, and otherwise ten seconds after the last one. */
  lemma DueExactly(calls: seq<Call>, now: Time)
    requires now >= 0
    ensures DueAt(calls) <= now <==>
      calls == [] || calls[|calls| - 1] == Requested || (calls[|calls| - 1].Recovered? && calls[|calls| - 1].at + 10_000 <= now)
  {
  }

  class NotificationDeliveryWorker {
    var nextRecoveryAt: Time
    ghost var calls: seq<Call>

    ghost predicate Valid()
      reads this
    {
      Timely(calls) && nextRecoveryAt == DueAt(calls)
    }

    constructor ()
      ensures Valid() && calls == []
    {
      nextRecoveryAt := 0;
      calls := [];
    }

    method RequestRecovery()
      requires Valid()
      modifies this
      ensures Valid() && calls == old(calls) + [Requested]
    {
      nextRecoveryAt := 0;
      calls := calls + [Requested];
      assert forall i :: 0 <= i < |calls| - 1 ==> calls[..i] == old(calls)[..i];
    }

    /** #recoverExpiredDispatchesIfDue. */
    method RecoverIfDue(now: Time)
      requires Valid()
      modifies this
      ensures Valid() && calls == if DueAt(old(calls)) <= now then old(calls) + [Recovered(now)] else old(calls)
    {
      if now < nextRecoveryAt {
        return;
      }
      nextRecoveryAt := now + DISPATCH_RECOVERY_INTERVAL_MS;
      calls := calls + [Recovered(now)];
      assert forall i :: 0 <= i < |calls| ==> calls[..i] == old(calls)[..i];
    }

    /** runOnce: at most one send, and every claim ends in an outcome or an abandonment. */
    method RunOnce(claim: Option<Id>, deadline: Time, now: Time) returns (recorded: Option<OutboxState>, path: seq<Worker>)
      requires Valid()
      modifies this
      ensures Valid() && calls == if DueAt(old(calls)) <= now then old(calls) + [Recovered(now)] else old(calls)
      ensures Path(path) && AtMostOneSending(path)
      ensures claim.None? ==> path == [Idle] && recorded.None?
      ensures claim.Some? ==> |path| > 1 && path[1] == Claimed(claim.value)
      ensures claim.Some? ==>
        var last := path[|path| - 1];
        if recorded.Some? then last.Finishing? && last.permit == claim.value && last.outcome == recorded.value
        else last == Abandoning(claim.value)
    {
      RecoverIfDue(now);
      if claim.None? {
        StageReached(0, deadline);
        return None, [Idle];
      }
      var a := Try(claim.value, deadline, now);
      OneRunIsPath(a.path, claim.value, deadline);
      if a.failure.None? {
        return Some(a.path[|a.path| - 1].outcome), a.path;
      }
      recorded, path := Catch(a, claim.value, deadline);
      OneRunIsPath(path, claim.value, deadline);
      assert path[1] == a.path[1];
    }
  }
}
