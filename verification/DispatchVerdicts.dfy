/**
 What the final state of an outbox row says over a whole run: accepted exactly when a worker
 recorded the provider's acceptance, rejected only when the provider rejected or was never
 asked, and otherwise unknown.
 */
module DispatchVerdicts {
  import opened Base
  import opened Dispatch
  import opened DispatchInvariant
  import opened DispatchRuns
  import opened DispatchTheorems
  import opened DispatchOutcomes

  /* ---- settled rows ------------------------------------------------------- */

  predicate Settled(r: OutboxRow) {
    IsOutcome(r.state) || r.state == Cancelled
  }

  /** A settled row never changes its state again. */
  lemma {:induction false} SettledStays(world: World, steps: seq<Step>, k: nat, o: Id)
    requires k <= |steps| && o in Run(world, steps[..k]).db.outbox && Settled(Run(world, steps[..k]).db.outbox[o])
    ensures o in Run(world, steps).db.outbox
    ensures Run(world, steps).db.outbox[o].state == Run(world, steps[..k]).db.outbox[o].state
  {
    if k == |steps| {
      assert steps[..k] == steps;
    } else {
      var init := steps[..|steps| - 1];
      assert init[..k] == steps[..k];
      SettledStays(world, init, k, o);
      StepExplained(Run(world, init), steps[|steps| - 1], o);
    }
  }

  /** A row appears waiting and unclaimed, for a deliverable scope, while monitors are open. */
  lemma NewRowsPend(world: World, step: Step, o: Id)
    requires o !in world.db.outbox && o in Apply(world, step).db.outbox
    ensures step.DoCreateAlert? && step.o == o
    ensures var r, db := Apply(world, step).db.outbox[o], world.db;
      && r == OutboxRow(step.x, step.link, step.link, r.linkGeneration, r.generation, Pending, None, 0)
      && db.gates.ready && db.gates.monitors
      && Deliverable(db, r.installation, r.generation, r.scope, r.linkGeneration)
  {
    if StoreStep(step) {
      if !step.DoCreateAlert? { StoreStepRows(world, step, o); }
    } else if DispatchStep(step) {
      DispatchStepRows(world, step, o);
    } else {
      QuietStep(world, step);
    }
  }

  lemma StoreStepRows(world: World, step: Step, o: Id)
    requires StoreStep(step) && !step.DoCreateAlert? && o in Apply(world, step).db.outbox
    ensures o in world.db.outbox
  {
  }

  lemma DispatchStepRows(world: World, step: Step, o: Id)
    requires DispatchStep(step) && o in Apply(world, step).db.outbox
    ensures o in world.db.outbox
  {
  }

  /* ---- records --------------------------------------------------------------- */

  /** Step `j` of the run is a worker's committed record of `outcome` for row `o`, with permit `p`. */
  ghost predicate RecordedAt(world: World, steps: seq<Step>, j: nat, o: Id, p: Id, outcome: OutboxState) {
    j < |steps| && Records(Run(world, steps[..j]), steps[j], o, p, outcome)
  }

  /** When a record commits; an acceptance also needs the token its ticket names. */
  lemma RecordCommits(world: World, w: Id, t: Time, acked: bool)
    requires WorldInv(world) && Pc(world, w).Finishing?
    ensures var pc := Pc(world, w);
      Records(world, WorkerFinish(w, t, acked), world.db.permits[pc.permit].outbox, pc.permit, pc.outcome) <==>
        && world.db.permits[pc.permit].state == Started
        && world.db.clock <= t
        && (pc.outcome == ProviderAccepted ==> world.db.permits[pc.permit].installation in world.db.tokens)
        && IsOutcome(pc.outcome)
  {
    var pc := Pc(world, w);
    assert Holds(pc, world.db.permits, world.log, world.db.clock);
    assert Paired(world.db.permits[pc.permit], world.db.outbox, world.db.clock);
  }

  /** A committed record puts its outcome into its row and finishes its permit, and touches no other row or permit. */
  lemma RecordStores(world: World, step: Step, o: Id, p: Id, outcome: OutboxState)
    requires Records(world, step, o, p, outcome)
    ensures var before, after := world.db, Apply(world, step).db;
      && o in before.outbox && after.outbox.Keys == before.outbox.Keys && after.outbox[o].state == outcome
      && (forall k :: k in before.outbox && k != o ==> after.outbox[k] == before.outbox[k])
      && after.permits == before.permits[p := before.permits[p].(state := Finished)]
      && after.installations == before.installations && after.links == before.links && after.tokens == before.tokens
  {
  }

  /** A row holds what was recorded for it, to the end of the run. */
  lemma RecordLasts(world: World, steps: seq<Step>, j: nat, o: Id, p: Id, outcome: OutboxState)
    requires RecordedAt(world, steps, j, o, p, outcome) && IsOutcome(outcome)
    ensures o in Run(world, steps).db.outbox && Run(world, steps).db.outbox[o].state == outcome
  {
    RecordStores(Run(world, steps[..j]), steps[j], o, p, outcome);
    assert steps[..j + 1][..j] == steps[..j];
    SettledStays(world, steps, j + 1, o);
  }

  /** Step `j`, a recovery or a fence, makes the row unknown; the deadline of its submission has passed. */
  ghost predicate GivenUpAt(world: World, steps: seq<Step>, j: nat, o: Id) {
    && j < |steps|
    && var before := Run(world, steps[..j]);
    && o in before.db.outbox && before.db.outbox[o].state == SubmissionStarted
    && (steps[j].DoRecover? || FencesRow(before.db, steps[j], before.db.outbox[o]))
    && var after := Run(world, steps[..j + 1]);
    && o in after.db.outbox && after.db.outbox[o].state == OutcomeUnknown
    && Overdue(before.db, o, after.db.clock)
  }

  /** What a prefix recorded, or gave up, the run did. */
  lemma RecordedLater(world: World, steps: seq<Step>, n: nat, j: nat, o: Id, p: Id, outcome: OutboxState)
    requires n <= |steps| && RecordedAt(world, steps[..n], j, o, p, outcome)
    ensures RecordedAt(world, steps, j, o, p, outcome)
  {
    assert steps[..n][..j] == steps[..j];
  }

  lemma GivenUpLater(world: World, steps: seq<Step>, n: nat, j: nat, o: Id)
    requires n <= |steps| && GivenUpAt(world, steps[..n], j, o)
    ensures GivenUpAt(world, steps, j, o)
  {
    assert steps[..n][..j] == steps[..j] && steps[..n][..j + 1] == steps[..j + 1];
  }

  lemma GivenUpLasts(world: World, steps: seq<Step>, j: nat, o: Id)
    requires GivenUpAt(world, steps, j, o)
    ensures o in Run(world, steps).db.outbox && Run(world, steps).db.outbox[o].state == OutcomeUnknown
  {
    SettledStays(world, steps, j + 1, o);
  }

  /** Every final state of a row comes from a record of just that outcome, or from giving the row up. */
  lemma {:induction false} OutcomeRecorded(world: World, steps: seq<Step>, o: Id)
    requires Initial(world) && o in Run(world, steps).db.outbox && IsOutcome(Run(world, steps).db.outbox[o].state)
    ensures var outcome := Run(world, steps).db.outbox[o].state;
      || (exists j: nat, p: Id :: RecordedAt(world, steps, j, o, p, outcome))
      || (outcome == OutcomeUnknown && exists j: nat :: GivenUpAt(world, steps, j, o))
  {
    var n := |steps| - 1;
    var init, last := steps[..n], steps[n];
    var before := Run(world, init);
    var outcome := Run(world, steps).db.outbox[o].state;
    if o !in before.db.outbox {
      NewRowsPend(before, last, o);
    } else {
      StepExplained(before, last, o);
      if before.db.outbox[o].state == outcome {
        OutcomeRecorded(world, init, o);
        if j: nat, p: Id :| RecordedAt(world, init, j, o, p, outcome) {
          RecordedLater(world, steps, n, j, o, p, outcome);
        } else {
          var j: nat :| GivenUpAt(world, init, j, o);
          GivenUpLater(world, steps, n, j, o);
        }
      } else if RecordsRow(before, last, o, outcome) {
        assert RecordedAt(world, steps, n, o, Pc(before, last.w).permit, outcome);
      } else {
        assert steps[..n + 1] == steps;
        assert GivenUpAt(world, steps, n, o);
      }
    }
  }

  /* ---- where a worker's outcome comes from ----------------------------------------- */

  /** In step `i` the provider answers worker `w`, which is sending with permit `p`. */
  ghost predicate AnsweredAt(world: World, steps: seq<Step>, i: nat, w: Id, p: Id, outcome: OutboxState) {
    && i < |steps| && steps[i] == WorkerReceive(w, outcome)
    && var pc := Pc(Run(world, steps[..i]), w);
    pc.Sending? && pc.permit == p
  }

  ghost predicate Answered(world: World, steps: seq<Step>, w: Id, p: Id, outcome: OutboxState) {
    exists i: nat :: AnsweredAt(world, steps, i, w, p, outcome)
  }

  lemma AnsweredLater(world: World, steps: seq<Step>, k: nat, w: Id, p: Id, outcome: OutboxState)
    requires k <= |steps| && Answered(world, steps[..k], w, p, outcome)
    ensures Answered(world, steps, w, p, outcome)
  {
    var i: nat :| AnsweredAt(world, steps[..k], i, w, p, outcome);
    assert steps[..k][..i] == steps[..i];
    assert AnsweredAt(world, steps, i, w, p, outcome);
  }

  /** A worker comes to an outcome by an answer, or by a failure. */
  lemma OutcomeArises(world: World, step: Step, w: Id)
    requires Pc(Apply(world, step), w).Finishing? && Pc(Apply(world, step), w) != Pc(world, w)
    ensures var pc := Pc(Apply(world, step), w);
      || (pc.outcome == OutcomeUnknown && pc.sent)
      || (pc.outcome == ProviderRejected && !pc.sent)
      || (&& step == WorkerReceive(w, pc.outcome) && pc.sent
          && Pc(world, w).Sending? && Pc(world, w).permit == pc.permit)
  {
    if StoreStep(step) { StoreStepWorkers(world, step); }
  }

  lemma StoreStepWorkers(world: World, step: Step)
    requires StoreStep(step)
    ensures Apply(world, step).workers == world.workers
  {
  }

  /** What a worker is about to record: the provider's answer, unknown, or a rejection without a send. */
  lemma {:induction false} OutcomeAnswered(world: World, steps: seq<Step>, w: Id)
    requires Initial(world) && Pc(Run(world, steps), w).Finishing?
    ensures var pc := Pc(Run(world, steps), w);
      || (pc.outcome == OutcomeUnknown && pc.sent)
      || (pc.outcome == ProviderRejected && !pc.sent)
      || (pc.sent && Answered(world, steps, w, pc.permit, pc.outcome))
  {
    var n := |steps| - 1;
    var init, last := steps[..n], steps[n];
    var before := Run(world, init);
    var pc := Pc(Run(world, steps), w);
    if pc == Pc(before, w) {
      OutcomeAnswered(world, init, w);
      if Answered(world, init, w, pc.permit, pc.outcome) { AnsweredLater(world, steps, n, w, pc.permit, pc.outcome); }
    } else {
      OutcomeArises(before, last, w);
      if last == WorkerReceive(w, pc.outcome) && Pc(before, w).Sending? {
        assert AnsweredAt(world, steps, n, w, pc.permit, pc.outcome) || pc.permit != Pc(before, w).permit;
      }
    }
  }

  /* ---- a permit on which nothing will be sent ------------------------------------------ */

  /** Nothing was sent on the permit, and nobody holds it who still may. */
  ghost predicate NeverSends(world: World, o: Id, p: Id) {
    && Begun(world.db.permits, o, p) && !SentBy(world.log, p)
    && forall w :: w in world.workers && !world.workers[w].Idle? && world.workers[w].permit == p ==>
         world.workers[w].Finishing? && !world.workers[w].sent
  }

  /** A worker keeps its permit or lets go of it, takes only new ones, and finishes without a send if it came so far. */
  lemma PermitHeld(world: World, step: Step, v: Id, p: Id)
    requires v in Apply(world, step).workers && !Apply(world, step).workers[v].Idle?
    requires Apply(world, step).workers[v].permit == p && p in world.db.permits
    ensures v in world.workers && !world.workers[v].Idle? && world.workers[v].permit == p
    ensures world.workers[v].Finishing? && !world.workers[v].sent ==>
      Apply(world, step).workers[v].Finishing? && !Apply(world, step).workers[v].sent
  {
    if StoreStep(step) { StoreStepWorkers(world, step); }
  }

  lemma NoSendWithout(world: World, step: Step, p: Id)
    requires SentBy(Apply(world, step).log, p) && !SentBy(world.log, p)
    ensures step.WorkerSend? && Pc(world, step.w).Authorized? && Pc(world, step.w).permit == p
  {
    if !step.WorkerAuthorize? && !step.WorkerSend? { NonWorkerStepLogs(world, step); }
    else {
      var before, after := world.log, Apply(world, step).log;
      var i :| 0 <= i < |after| && after[i].ProviderSend? && after[i].permit == p;
      assert i == |before|;
    }
  }

  lemma NeverSendsStep(world: World, step: Step, o: Id, p: Id)
    requires WorldInv(world) && NeverSends(world, o, p)
    ensures NeverSends(Apply(world, step), o, p)
  {
    StepLater(world, step);
    var after := Apply(world, step);
    if SentBy(after.log, p) { NoSendWithout(world, step, p); }
    forall v | v in after.workers && !after.workers[v].Idle? && after.workers[v].permit == p
      ensures after.workers[v].Finishing? && !after.workers[v].sent
    {
      PermitHeld(world, step, v, p);
    }
  }

  lemma {:induction false} NeverSendsRun(world: World, steps: seq<Step>, k: nat, o: Id, p: Id)
    requires Initial(world) && k <= |steps| && NeverSends(Run(world, steps[..k]), o, p)
    ensures NeverSends(Run(world, steps), o, p)
  {
    if k == |steps| {
      assert steps[..k] == steps;
    } else {
      var init := steps[..|steps| - 1];
      assert init[..k] == steps[..k];
      NeverSendsRun(world, init, k, o, p);
      RunKeeps(world, init);
      NeverSendsStep(Run(world, init), steps[|steps| - 1], o, p);
    }
  }

  /** Only the holder of a permit is about to record with it. */
  lemma UnsentRecord(world: World, w: Id, o: Id)
    requires WorldInv(world) && Pc(world, w).Finishing? && !Pc(world, w).sent
    requires Begun(world.db.permits, o, Pc(world, w).permit)
    ensures NeverSends(world, o, Pc(world, w).permit)
  {
    assert Holds(Pc(world, w), world.db.permits, world.log, world.db.clock);
  }

  ghost predicate SentFor(log: seq<Event>, o: Id) {
    exists i :: 0 <= i < |log| && log[i].ProviderSend? && log[i].outbox == o
  }

  lemma NeverSentFor(world: World, o: Id, p: Id)
    requires WorldInv(world) && NeverSends(world, o, p)
    ensures !SentFor(world.log, o)
  {
    assert Sole(world.db.permits, o, p);
    forall i | 0 <= i < |world.log| && world.log[i].ProviderSend?
      ensures world.log[i].outbox != o
    {
      assert Recorded(world.log[i], world.db.permits);
    }
  }

  /* ---- verdicts ------------------------------------------------------------------------------ */

  /** Before step `j` the provider gave worker `w` this answer for the permit. */
  ghost predicate AnsweredBefore(world: World, steps: seq<Step>, j: nat, p: Id, outcome: OutboxState) {
    exists i: nat, w: Id :: i < j && AnsweredAt(world, steps, i, w, p, outcome)
  }

  lemma RecordAnswered(world: World, steps: seq<Step>, j: nat, o: Id, p: Id, outcome: OutboxState)
    requires Initial(world) && RecordedAt(world, steps, j, o, p, outcome)
    ensures
      || AnsweredBefore(world, steps, j, p, outcome)
      || outcome == OutcomeUnknown
      || (outcome == ProviderRejected && !SentFor(Run(world, steps).log, o))
  {
    var before := Run(world, steps[..j]);
    var pc := Pc(before, steps[j].w);
    OutcomeAnswered(world, steps[..j], steps[j].w);
    if pc.outcome == ProviderRejected && !pc.sent {
      RunKeeps(world, steps[..j]);
      UnsentRecord(before, steps[j].w, o);
      NeverSendsRun(world, steps, j, o, p);
      RunKeeps(world, steps);
      NeverSentFor(Run(world, steps), o, p);
    } else if Answered(world, steps[..j], steps[j].w, p, outcome) {
      var i: nat :| AnsweredAt(world, steps[..j], i, steps[j].w, p, outcome);
      assert steps[..j][..i] == steps[..i];
      assert AnsweredAt(world, steps, i, steps[j].w, p, outcome);
    }
  }

  /** A row is accepted if and only if the provider accepted it and a worker recorded so. */
  lemma AcceptedExactly(world: World, steps: seq<Step>, o: Id)
    requires Initial(world)
    ensures (o in Run(world, steps).db.outbox && Run(world, steps).db.outbox[o].state == ProviderAccepted) <==>
      exists j: nat, p: Id :: RecordedAt(world, steps, j, o, p, ProviderAccepted) && AnsweredBefore(world, steps, j, p, ProviderAccepted)
  {
    if o in Run(world, steps).db.outbox && Run(world, steps).db.outbox[o].state == ProviderAccepted {
      OutcomeRecorded(world, steps, o);
      var j: nat, p: Id :| RecordedAt(world, steps, j, o, p, ProviderAccepted);
      RecordAnswered(world, steps, j, o, p, ProviderAccepted);
    }
    if j: nat, p: Id :| RecordedAt(world, steps, j, o, p, ProviderAccepted) {
      RecordLasts(world, steps, j, o, p, ProviderAccepted);
    }
  }

  /** A row is rejected if and only if a worker recorded so, after the provider rejected it or with no send for it in the whole run. */
  lemma RejectedExactly(world: World, steps: seq<Step>, o: Id)
    requires Initial(world)
    ensures (o in Run(world, steps).db.outbox && Run(world, steps).db.outbox[o].state == ProviderRejected) <==>
      exists j: nat, p: Id ::
        && RecordedAt(world, steps, j, o, p, ProviderRejected)
        && (AnsweredBefore(world, steps, j, p, ProviderRejected) || !SentFor(Run(world, steps).log, o))
  {
    if o in Run(world, steps).db.outbox && Run(world, steps).db.outbox[o].state == ProviderRejected {
      OutcomeRecorded(world, steps, o);
      var j: nat, p: Id :| RecordedAt(world, steps, j, o, p, ProviderRejected);
      RecordAnswered(world, steps, j, o, p, ProviderRejected);
    }
    if j: nat, p: Id :| RecordedAt(world, steps, j, o, p, ProviderRejected) {
      RecordLasts(world, steps, j, o, p, ProviderRejected);
    }
  }

  /** A row is unknown if and only if a worker recorded so, or a recovery or a fence gave it up past the deadline of its submission. */
  lemma UnknownExactly(world: World, steps: seq<Step>, o: Id)
    requires Initial(world)
    ensures (o in Run(world, steps).db.outbox && Run(world, steps).db.outbox[o].state == OutcomeUnknown) <==>
      || (exists j: nat, p: Id :: RecordedAt(world, steps, j, o, p, OutcomeUnknown))
      || (exists j: nat :: GivenUpAt(world, steps, j, o))
  {
    if o in Run(world, steps).db.outbox && Run(world, steps).db.outbox[o].state == OutcomeUnknown {
      OutcomeRecorded(world, steps, o);
    }
    if j: nat, p: Id :| RecordedAt(world, steps, j, o, p, OutcomeUnknown) {
      RecordLasts(world, steps, j, o, p, OutcomeUnknown);
    }
    if j: nat :| GivenUpAt(world, steps, j, o) {
      GivenUpLasts(world, steps, j, o);
    }
  }

  /* ---- when the provider is asked ----------------------------------------------------------- */

  /** In step `i` the permit is inserted. */
  ghost predicate GrantedAt(world: World, steps: seq<Step>, i: nat, p: Id) {
    i < |steps| && p !in Run(world, steps[..i]).db.permits && p in Run(world, steps[..i + 1]).db.permits
  }

  lemma {:induction false} Granted(world: World, steps: seq<Step>, p: Id)
    requires Initial(world) && p in Run(world, steps).db.permits
    ensures exists i: nat :: GrantedAt(world, steps, i, p)
  {
    var n := |steps| - 1;
    var init := steps[..n];
    if p in Run(world, init).db.permits {
      Granted(world, init, p);
      var i: nat :| GrantedAt(world, init, i, p);
      assert init[..i] == steps[..i] && init[..i + 1] == steps[..i + 1];
      assert GrantedAt(world, steps, i, p);
    } else {
      assert steps[..n + 1] == steps;
      assert GrantedAt(world, steps, n, p);
    }
  }

  /** A new permit belongs to a row that was waiting, and runs for at most ten seconds. */
  lemma NewPermit(world: World, step: Step, p: Id)
    requires p !in world.db.permits && p in Apply(world, step).db.permits
    ensures var q := Apply(world, step).db.permits[p];
      && q.state == Active && q.outbox in world.db.outbox && world.db.outbox[q.outbox].state == Pending
      && q.deadline <= Apply(world, step).db.clock + 10_000
      && q.expiresAt <= Apply(world, step).db.clock + 30_000
  {
    if StoreStep(step) {
      if !step.DoAcquirePermit? { StoreStepPermits(world, step, p); }
    } else if DispatchStep(step) {
      if !step.WorkerClaim? { DispatchStepPermits(world, step, p); }
    } else {
      QuietStep(world, step);
    }
  }

  lemma StoreStepPermits(world: World, step: Step, p: Id)
    requires StoreStep(step) && !step.DoAcquirePermit? && p in Apply(world, step).db.permits
    ensures p in world.db.permits
  {
  }

  lemma DispatchStepPermits(world: World, step: Step, p: Id)
    requires DispatchStep(step) && !step.WorkerClaim? && p in Apply(world, step).db.permits
    ensures p in world.db.permits
  {
  }

  /** The event is inside the deadline of its permit. */
  predicate InTime(e: Event, permits: map<Id, PermitRow>) {
    e.permit in permits && e.at < permits[e.permit].deadline
  }

  lemma StepInTime(world: World, step: Step, i: nat)
    requires WorldInv(world) && |world.log| <= i < |Apply(world, step).log|
    ensures InTime(Apply(world, step).log[i], Apply(world, step).db.permits)
  {
    if step.WorkerSend? { assert Holds(Pc(world, step.w), world.db.permits, world.log, world.db.clock); }
  }

  lemma {:induction false} AllInTime(world: World, steps: seq<Step>, i: nat)
    requires Initial(world) && i < |Run(world, steps).log|
    ensures InTime(Run(world, steps).log[i], Run(world, steps).db.permits)
  {
    var init := steps[..|steps| - 1];
    var before := Run(world, init);
    RunKeeps(world, init);
    StepLater(before, steps[|steps| - 1]);
    if i < |before.log| {
      AllInTime(world, init, i);
      assert before.log[i] == Run(world, steps).log[i];
    } else {
      StepInTime(before, steps[|steps| - 1], i);
    }
  }

  /** Every authorization and every send happens less than ten seconds after its permit was granted. */
  lemma AskedWithinTenSeconds(world: World, steps: seq<Step>, k: nat) returns (i: nat)
    requires Initial(world) && k < |Run(world, steps).log|
    ensures GrantedAt(world, steps, i, Run(world, steps).log[k].permit)
    ensures Run(world, steps).log[k].at < Run(world, steps[..i + 1]).db.clock + 10_000
  {
    var e := Run(world, steps).log[k];
    AllInTime(world, steps, k);
    Granted(world, steps, e.permit);
    i :| GrantedAt(world, steps, i, e.permit);
    assert steps[..i + 1][..i] == steps[..i];
    NewPermit(Run(world, steps[..i]), steps[i], e.permit);
    RunLater(world, steps, i + 1);
  }

  /** A crash forgets what the worker held and changes no row; time, gates, egress lease and tokens move freely. */
  lemma SurroundingsMove(world: World, w: Id, t: Time, gates: Gates, egress: Option<EgressLease>, x: Id, live: bool)
    ensures Pc(Apply(world, Crash(w)), w).Idle? && Apply(world, Crash(w)).db == world.db && Apply(world, Crash(w)).log == world.log
    ensures forall v :: v != w ==> Pc(Apply(world, Crash(w)), v) == Pc(world, v)
    ensures world.db.clock <= t ==> Apply(world, Tick(t)) == world.(db := world.db.(clock := t))
    ensures Apply(world, SetGates(gates)) == world.(db := world.db.(gates := gates))
    ensures Apply(world, SetEgress(egress)) == world.(db := world.db.(egress := egress))
    ensures x in world.db.tokens ==> Apply(world, SetToken(x, live)) == world.(db := world.db.(tokens := world.db.tokens[x := live]))
  {
  }
}
