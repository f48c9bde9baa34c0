/**
 The sync state row both catalog stores share: leases, page progress and the
 decision to retry a page, go to the next one or publish.
 */
module CatalogSync {
  import opened Base
  import opened Catalog

  type Time = int
  type Owner = nat

  const SYNC_LEASE_MS := 120_000

  datatype Sync = Sync(
    published: Option<nat>,
    building: Option<nat>,
    coreReady: bool,
    offset: nat,
    failures: nat,
    owner: Option<Owner>,
    leaseGeneration: nat,
    expiresAt: Time,
    nextAttempt: Time)

  /** MarketCatalogSyncLease: the row as the claim saw it. */
  datatype Lease = Lease(
    owner: Owner, leaseGeneration: nat, building: nat, published: Option<nat>, coreReady: bool, offset: nat)

  const INITIAL := Sync(None, None, false, 0, 0, None, 0, 0, 0)

  predicate Due(s: Sync, t: Time) {
    s.nextAttempt <= t && (s.owner.None? || s.expiresAt <= t)
  }

  function NextGeneration(s: Sync): nat {
    if s.published.Some? then s.published.value + 1 else 1
  }

  /** claimDueSync: take the lease, and start a generation unless one is being built. */
  function Claim(s: Sync, owner: Owner, t: Time): Sync
    requires Due(s, t)
  {
    if s.building.Some? then Lock(s, owner, t) else Begin(Lock(s, owner, t))
  }

  /** D1 claims in two round trips: the lease first, the new generation second. */
  function Lock(s: Sync, owner: Owner, t: Time): Sync
    requires Due(s, t)
  {
    s.(owner := Some(owner), leaseGeneration := s.leaseGeneration + 1, expiresAt := t + SYNC_LEASE_MS)
  }

  predicate MayBegin(s: Sync, owner: Owner, leaseGeneration: nat, published: Option<nat>) {
    s.owner == Some(owner) && s.leaseGeneration == leaseGeneration && s.published == published && s.building.None?
  }

  function Begin(s: Sync): Sync {
    s.(building := Some(NextGeneration(s)), coreReady := false, offset := 0, failures := 0)
  }

  function LeaseOf(s: Sync, owner: Owner): Lease
    requires s.building.Some?
  {
    Lease(owner, s.leaseGeneration, s.building.value, s.published, s.coreReady, s.offset)
  }

  /** The WHERE clause of every write under a lease. */
  predicate Held(s: Sync, l: Lease) {
    s.owner == Some(l.owner) && s.leaseGeneration == l.leaseGeneration && s.building == Some(l.building)
  }

  /** lockLease and #claimedState; a D1 batch may land later than the `t` its read used. */
  predicate MayComplete(s: Sync, l: Lease, t: Time) {
    Held(s, l) && s.expiresAt > t
  }

  function Released(s: Sync, nextAttempt: Time): Sync {
    s.(owner := None, expiresAt := 0, nextAttempt := nextAttempt)
  }

  predicate CoreFailed(incoming: Catalog) {
    exists i :: 0 <= i < |CORE| && LastError(incoming.errors, CORE[i].1).Some?
  }

  predicate PageFailed(incoming: Catalog, page: Page) {
    || LastError(incoming.errors, ENUMERATION).Some?
    || exists i :: 0 <= i < |page.dexes| && LastError(incoming.errors, DexErrorName(page.dexes[i])).Some?
  }

  function AfterCore(s: Sync, l: Lease, incoming: Catalog, nextAttempt: Time): Sync {
    var ready := !CoreFailed(incoming) || s.failures + 1 >= MAX_PAGE_FAILURES;
    Released(s, nextAttempt).(coreReady := ready, failures := if ready then 0 else s.failures + 1, offset := l.offset)
  }

  datatype Verdict = Retry | NextPage(offset: nat) | Publish

  function Judge(s: Sync, incoming: Catalog, page: Page): Verdict {
    if PageFailed(incoming, page) && s.failures + 1 < MAX_PAGE_FAILURES then Retry
    else
      var next := if page.total < page.offset + |page.dexes| then page.total else page.offset + |page.dexes|;
      if next < page.total then NextPage(next) else Publish
  }

  function AfterPage(s: Sync, l: Lease, incoming: Catalog, page: Page, nextAttempt: Time): Sync {
    match Judge(s, incoming, page)
    case Retry => Released(s, nextAttempt).(coreReady := true, failures := s.failures + 1, offset := l.offset)
    case NextPage(next) => Released(s, nextAttempt).(coreReady := true, failures := 0, offset := next)
    case Publish => Released(s, nextAttempt).(
      published := Some(l.building), building := None, coreReady := false, offset := 0, failures := 0)
  }

  /** The checks completeBuilderPage makes before it looks at the store. */
  predicate PageAcceptable(l: Lease, incoming: Catalog) {
    && incoming.page.Some?
    && incoming.page.value.offset == l.offset
    && !(incoming.page.value.total > incoming.page.value.offset && incoming.page.value.dexes == [])
  }

  datatype Step =
    | DoClaim(owner: Owner, t: Time)
    | DoLock(owner: Owner, t: Time)
    | DoBegin(owner: Owner, leaseGeneration: nat, published: Option<nat>)
    | DoCore(lease: Lease, incoming: Catalog, t: Time, nextAttempt: Time)
    | DoPage(lease: Lease, incoming: Catalog, t: Time, nextAttempt: Time)
    | DoFailure(lease: Lease, nextAttempt: Time)

  /** Whether the step passes its guards; otherwise it throws or changes no row. */
  predicate Enabled(s: Sync, step: Step) {
    match step
    case DoClaim(owner, t) => Due(s, t)
    case DoLock(owner, t) => Due(s, t) && s.building.None?
    case DoBegin(owner, g, published) => MayBegin(s, owner, g, published)
    case DoCore(l, incoming, t, _) => MayComplete(s, l, t)
    case DoPage(l, incoming, t, _) => PageAcceptable(l, incoming) && MayComplete(s, l, t)
    case DoFailure(l, _) => Held(s, l)
  }

  function Next(s: Sync, step: Step): Sync {
    if !Enabled(s, step) then s
    else match step
      case DoClaim(owner, t) => Claim(s, owner, t)
      case DoLock(owner, t) => Lock(s, owner, t)
      case DoBegin(_, _, _) => Begin(s)
      case DoCore(l, incoming, _, next) => AfterCore(s, l, incoming, next)
      case DoPage(l, incoming, _, next) => AfterPage(s, l, incoming, incoming.page.value, next)
      case DoFailure(l, next) => Released(s, next)
  }

  predicate Publishes(s: Sync, step: Step) {
    step.DoPage? && Enabled(s, step) && Judge(s, step.incoming, step.incoming.page.value).Publish?
  }

  /* ---- issued leases and fencing --------------------------------------- */

  /** The sync row together with every lease a claim ever returned. */
  datatype Issued = Issued(sync: Sync, leases: set<Lease>)

  predicate UsesLease(step: Step) {
    step.DoCore? || step.DoPage? || step.DoFailure?
  }

  /** Steps whose answer is a lease. */
  predicate Issues(step: Step) {
    step.DoClaim? || step.DoBegin?
  }

  predicate LeaseKnown(h: Issued, step: Step) {
    UsesLease(step) ==> step.lease in h.leases
  }

  function NextIssued(h: Issued, step: Step): Issued {
    var after := Next(h.sync, step);
    Issued(after,
      if Issues(step) && Enabled(h.sync, step) then h.leases + {LeaseOf(after, step.owner)} else h.leases)
  }

  ghost predicate LeaseFits(s: Sync, l: Lease) {
    && l.leaseGeneration <= s.leaseGeneration
    && (s.owner.Some? && s.building.None? ==> l.leaseGeneration < s.leaseGeneration)
    && (Held(s, l) ==> l.published == s.published && l.coreReady == s.coreReady && l.offset == s.offset)
  }

  ghost predicate SyncInv(h: Issued) {
    && (forall l :: l in h.leases ==> LeaseFits(h.sync, l))
    && (h.sync.building.Some? ==> h.sync.building.value == NextGeneration(h.sync))
    && (h.sync.building.None? ==>
          !h.sync.coreReady && h.sync.offset == 0 && h.sync.failures == 0)
    && h.sync.failures < MAX_PAGE_FAILURES
  }

  lemma NextKeeps(h: Issued, step: Step)
    requires SyncInv(h) && LeaseKnown(h, step)
    ensures SyncInv(NextIssued(h, step))
  {
    var after := NextIssued(h, step);
    forall l | l in after.leases
      ensures LeaseFits(after.sync, l)
    {
      if l in h.leases { assert LeaseFits(h.sync, l); }
    }
    if UsesLease(step) { assert LeaseFits(h.sync, step.lease); }
  }

  function Run(h: Issued, steps: seq<Step>): Issued {
    if steps == [] then h else NextIssued(Run(h, steps[..|steps| - 1]), steps[|steps| - 1])
  }

  /** Every step uses a lease that some earlier claim of the run returned. */
  predicate Honest(h: Issued, steps: seq<Step>) {
    forall i :: 0 <= i < |steps| ==> LeaseKnown(Run(h, steps[..i]), steps[i])
  }

  const START := Issued(INITIAL, {})

  lemma {:induction false} RunKeeps(steps: seq<Step>)
    requires Honest(START, steps)
    ensures SyncInv(Run(START, steps))
  {
    if steps != [] {
      var init := steps[..|steps| - 1];
      HonestPrefix(START, steps, |init|);
      RunKeeps(init);
      NextKeeps(Run(START, init), steps[|steps| - 1]);
    }
  }

  lemma HonestPrefix(h: Issued, steps: seq<Step>, k: nat)
    requires Honest(h, steps) && k <= |steps|
    ensures Honest(h, steps[..k])
  {
    forall i | 0 <= i < k
      ensures LeaseKnown(Run(h, steps[..k][..i]), steps[..k][i])
    {
      assert steps[..k][..i] == steps[..i];
    }
  }

  /** A published generation is followed by exactly its successor. */
  lemma PublishedGrowsByOne(h: Issued, step: Step)
    requires SyncInv(h) && LeaseKnown(h, step)
    ensures var before, after := h.sync, Next(h.sync, step);
      if Publishes(before, step)
      then after.published == Some(NextGeneration(before)) && after.building.None?
      else after.published == before.published
  {
  }

  /** A lease that was issued and is not held. */
  predicate Superseded(h: Issued, l: Lease) {
    l in h.leases && !Held(h.sync, l)
  }

  /** It is never held again. */
  lemma DeadStaysDead(h: Issued, step: Step, l: Lease)
    requires SyncInv(h) && LeaseKnown(h, step) && Superseded(h, l)
    ensures Superseded(NextIssued(h, step), l)
  {
    assert LeaseFits(h.sync, l);
  }

  /** The state before step i of a run, and the step. */
  lemma RunStep(steps: seq<Step>, i: nat)
    requires Honest(START, steps) && i < |steps|
    ensures Run(START, steps[..i + 1]) == NextIssued(Run(START, steps[..i]), steps[i])
    ensures SyncInv(Run(START, steps[..i])) && LeaseKnown(Run(START, steps[..i]), steps[i])
  {
    HonestPrefix(START, steps, i);
    RunKeeps(steps[..i]);
    assert steps[..i + 1][..i] == steps[..i];
  }

  /** Fencing: a superseded lease stays so over a run. */
  lemma {:induction false} StaysDead(steps: seq<Step>, k: nat, l: Lease, i: nat)
    requires Honest(START, steps) && k <= i <= |steps|
    requires Superseded(Run(START, steps[..k]), l)
    ensures Superseded(Run(START, steps[..i]), l)
  {
    if k < i {
      StaysDead(steps, k, l, i - 1);
      RunStep(steps, i - 1);
      DeadStaysDead(Run(START, steps[..i - 1]), steps[i - 1], l);
    }
  }

  /** A claim supersedes every lease issued before it. */
  lemma ClaimSupersedes(h: Issued, owner: Owner, t: Time, l: Lease)
    requires SyncInv(h) && l in h.leases && Due(h.sync, t)
    ensures !Held(NextIssued(h, DoClaim(owner, t)).sync, l)
  {
    assert LeaseFits(h.sync, l);
  }

  /* ---- termination ------------------------------------------------------ */

  /** With N builder dexes a page reports N, or fails enumeration and reports none. */
  predicate PageOfN(incoming: Catalog, n: nat) {
    && incoming.page.Some?
    && (incoming.page.value.total == n || (incoming.page.value.total == 0 && LastError(incoming.errors, ENUMERATION).Some?))
  }

  function AtLeastOne(n: int): nat {
    if n < 1 then 1 else n
  }

  /** Completed steps a build may still need. */
  function Remaining(s: Sync, n: nat): int {
    if s.building.None? || !s.coreReady then 3 - s.failures + 3 * AtLeastOne(n)
    else 3 * AtLeastOne(n - s.offset) - s.failures
  }

  /** A completed step is an enabled core or page step, made in the phase the lease was issued for. */
  predicate Completes(s: Sync, step: Step) {
    && Enabled(s, step)
    && ((step.DoCore? && !step.lease.coreReady) || (step.DoPage? && step.lease.coreReady))
  }

  lemma CompletionDrops(h: Issued, step: Step, n: nat)
    requires SyncInv(h) && LeaseKnown(h, step) && Completes(h.sync, step)
    requires step.DoPage? ==> PageOfN(step.incoming, n)
    requires h.sync.offset <= n
    ensures !Publishes(h.sync, step) ==>
      && Remaining(Next(h.sync, step), n) < Remaining(h.sync, n)
      && Next(h.sync, step).offset <= n
    ensures Remaining(h.sync, n) >= 1
  {
    assert LeaseFits(h.sync, step.lease);
  }

  /** Completed steps of a run, up to its end. */
  function Completions(h: Issued, steps: seq<Step>): nat {
    if steps == [] then 0
    else
      var init := steps[..|steps| - 1];
      Completions(h, init) + if Completes(Run(h, init).sync, steps[|steps| - 1]) then 1 else 0
  }

  predicate NoPublish(h: Issued, steps: seq<Step>) {
    forall i :: 0 <= i < |steps| ==> !Publishes(Run(h, steps[..i]).sync, steps[i])
  }

  /** The synchronizer completes the phase its lease names, on pages of N dexes. */
  predicate Orderly(h: Issued, steps: seq<Step>, n: nat) {
    forall i :: 0 <= i < |steps| ==>
      && LeaseKnown(Run(h, steps[..i]), steps[i])
      && (steps[i].DoCore? ==> !steps[i].lease.coreReady)
      && (steps[i].DoPage? ==> steps[i].lease.coreReady && PageOfN(steps[i].incoming, n))
  }

  lemma {:induction false} UnpublishedRun(h: Issued, steps: seq<Step>, n: nat)
    requires SyncInv(h) && h.sync.building.None?
    requires Orderly(h, steps, n) && NoPublish(h, steps)
    ensures SyncInv(Run(h, steps))
    ensures Run(h, steps).sync.offset <= n
    ensures Completions(h, steps) + Remaining(Run(h, steps).sync, n) <= 3 * (1 + AtLeastOne(n))
  {
    if steps != [] {
      var init, last := steps[..|steps| - 1], steps[|steps| - 1];
      forall i | 0 <= i < |init|
        ensures LeaseKnown(Run(h, init[..i]), init[i]) && !Publishes(Run(h, init[..i]).sync, init[i])
      {
        assert init[..i] == steps[..i];
      }
      UnpublishedRun(h, init, n);
      var before := Run(h, init);
      NextKeeps(before, last);
      if Completes(before.sync, last) {
        CompletionDrops(before, last, n);
      }
    }
  }

  /** A build of N dexes publishes after at most 3 * (1 + max(1, N)) completed steps, claims and failures interleaved at will. */
  lemma BuildPublishes(h: Issued, steps: seq<Step>, n: nat)
    requires SyncInv(h) && h.sync.building.None?
    requires Orderly(h, steps, n)
    requires Completions(h, steps) >= 3 * (1 + AtLeastOne(n))
    ensures !NoPublish(h, steps)
  {
    if NoPublish(h, steps) {
      UnpublishedRun(h, steps, n);
      RemainingPositive(Run(h, steps).sync, n);
    }
  }

  lemma RemainingPositive(s: Sync, n: nat)
    requires s.failures < MAX_PAGE_FAILURES
    ensures Remaining(s, n) >= 1
  {
  }
}
