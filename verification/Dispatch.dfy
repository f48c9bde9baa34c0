/**
 The rows of the notification database that take part in dispatch, and the
 transactions that change them. A transaction is a function from the database
 to the database it commits, or None when it throws and rolls back. Every
 statement that reads `clock_timestamp()` gets its own clock parameter.
 */
module Dispatch {
  import opened Base

  type Id = nat
  type Time = int

  const CLAIM_LIMIT := 8
  const PERMIT_LIFETIME := 30_000
  const PROVIDER_WINDOW := 10_000

  datatype OutboxState =
    | Pending | Leased | SubmissionStarted
    | ProviderAccepted | ProviderRejected | OutcomeUnknown | Cancelled

  datatype PermitState = Active | Started | Finished | Expired

  datatype ScopeState = Live | Draining | Inactive

  datatype OutboxRow = OutboxRow(
    installation: Id,
    link: Option<Id>,            // account_link_id, nulled when the link row is deleted
    scope: Option<Id>,           // account_link_scope_id, survives the link row
    linkGeneration: Option<nat>,
    generation: nat,             // revocation_generation
    state: OutboxState,
    leaseExpiresAt: Option<Time>,
    attempts: nat)               // claim_attempts

  datatype PermitRow = PermitRow(
    outbox: Id,
    installation: Id,
    link: Option<Id>,
    scope: Option<Id>,
    linkGeneration: Option<nat>,
    generation: nat,
    state: PermitState,
    expiresAt: Time,
    deadline: Time)              // provider_deadline_at

  datatype Installation = Installation(state: ScopeState, generation: nat)
  datatype Link = Link(installation: Id, state: ScopeState, generation: nat)
  datatype EgressLease = EgressLease(owner: Id, generation: nat, expiresAt: Time)
  datatype Gates = Gates(ready: bool, mutations: bool, monitors: bool, delivery: bool)

  /** A revocation scope: a whole installation, or one account link of it. */
  datatype Scope = OfInstallation(installation: Id) | OfLink(link: Id)
  datatype Operation = Operation(target: Scope, committed: bool)

  datatype Db = Db(
    clock: Time,
    gates: Gates,
    egress: Option<EgressLease>,
    installations: map<Id, Installation>,
    links: map<Id, Link>,
    tokens: map<Id, bool>,       // installation -> its push token is deliverable
    operations: map<Id, Operation>,
    outbox: map<Id, OutboxRow>,
    permits: map<Id, PermitRow>)

  /* ---- shared guards ------------------------------------------------- */

  predicate InstallationLive(db: Db, x: Id, generation: nat) {
    x in db.installations && db.installations[x] == Installation(Live, generation)
  }

  predicate LinkLive(db: Db, l: Id, x: Id, generation: Option<nat>) {
    && l in db.links
    && db.links[l].installation == x
    && db.links[l].state == Live
    && generation == Some(db.links[l].generation)
  }

  predicate TokenLive(db: Db, x: Id) {
    x in db.tokens && db.tokens[x]
  }

  predicate ScopeLive(db: Db, scope: Option<Id>, x: Id, generation: Option<nat>) {
    scope.Some? ==> LinkLive(db, scope.value, x, generation)
  }

  predicate DeliveryEnabled(db: Db) {
    db.gates.ready && db.gates.delivery
  }

  predicate EgressHeld(db: Db, owner: Id, generation: nat, t: Time) {
    && db.egress.Some?
    && db.egress.value.owner == owner
    && db.egress.value.generation == generation
    && db.egress.value.expiresAt > t
  }

  predicate LivePermit(p: PermitRow) {
    p.state == Active || p.state == Started
  }

  /* ---- outbox creation and claims ------------------------------------ */

  /** createAlertForRuleMatch, from the moment its dedupe key was claimed. */
  function CreateAlert(db: Db, o: Id, x: Id, link: Option<Id>): Option<Db> {
    if && db.gates.ready && db.gates.monitors
       && o !in db.outbox
       && x in db.installations && db.installations[x].state == Live
       && TokenLive(db, x)
       && (link.Some? ==>
             && link.value in db.links
             && db.links[link.value].installation == x
             && db.links[link.value].state == Live)
    then
      var linkGeneration := if link.Some? then Some(db.links[link.value].generation) else None;
      Some(db.(outbox := db.outbox[o := OutboxRow(
        x, link, link, linkGeneration, db.installations[x].generation, Pending, None, 0)]))
    else None
  }

  /** The row filter of claimNextDispatch. */
  predicate Claimable(db: Db, o: Id) {
    && o in db.outbox
    && var r := db.outbox[o];
    && r.state == Pending
    && r.attempts < CLAIM_LIMIT
    && InstallationLive(db, r.installation, r.generation)
    && TokenLive(db, r.installation)
    && ScopeLive(db, r.scope, r.installation, r.linkGeneration)
  }

  /** claimNextDispatch on the row `o` the query returned, with the new permit `p`. */
  function ClaimNext(db: Db, o: Id, p: Id, owner: Id, egressGeneration: nat, t1: Time, t2: Time, t3: Time): Option<Db> {
    if && db.clock <= t1 <= t2 <= t3
       && DeliveryEnabled(db)
       && EgressHeld(db, owner, egressGeneration, t1)
       && Claimable(db, o)
       && p !in db.permits
    then
      var r := db.outbox[o];
      Some(db.(
        clock := t3,
        permits := db.permits[p := PermitRow(
          o, r.installation, r.link, r.link, r.linkGeneration, r.generation, Active,
          t2 + PERMIT_LIFETIME, t2 + PROVIDER_WINDOW)],
        outbox := db.outbox[o := r.(
          state := Leased, leaseExpiresAt := Some(t3 + PERMIT_LIFETIME), attempts := r.attempts + 1)]))
    else None
  }

  /** acquireDispatchPermit: leases a row without counting an attempt or setting a lease expiry. */
  function AcquirePermit(db: Db, x: Id, link: Option<Id>, o: Id, p: Id, t1: Time, t2: Time): Option<Db> {
    if && db.clock <= t1 <= t2
       && x in db.installations && db.installations[x].state == Live
       && (link.Some? ==>
             && link.value in db.links
             && db.links[link.value].installation == x
             && db.links[link.value].state == Live)
       && o in db.outbox && db.outbox[o].installation == x
       && db.outbox[o].state == Pending
       && db.outbox[o].link == link
       && db.outbox[o].generation == db.installations[x].generation   // foreign key of the permit row
       && p !in db.permits
    then
      var r := db.outbox[o];
      var linkGeneration := if link.Some? then Some(db.links[link.value].generation) else None;
      Some(db.(
        clock := t2,
        permits := db.permits[p := PermitRow(
          o, x, link, link, linkGeneration, r.generation, Active,
          t1 + PERMIT_LIFETIME, t2 + PROVIDER_WINDOW)],
        outbox := db.outbox[o := r.(state := Leased, scope := link, linkGeneration := linkGeneration)]))
    else None
  }

  /* ---- the provider call --------------------------------------------- */

  /** markProviderSubmissionStarted; `t1`, `t2` are the two reads of its UPDATE. */
  function MarkStarted(db: Db, p: Id, t1: Time, t2: Time): Option<Db> {
    if && db.clock <= t1 <= t2
       && p in db.permits && db.permits[p].state == Active
       && var q := db.permits[p];
       && InstallationLive(db, q.installation, q.generation)
       && TokenLive(db, q.installation)
       && ScopeLive(db, q.scope, q.installation, q.linkGeneration)
       && q.outbox in db.outbox
       && var r := db.outbox[q.outbox];
       && r.installation == q.installation
       && r.state == Leased && r.scope == q.scope && r.generation == q.generation
       && q.expiresAt > t1 && q.deadline > t2
    then
      var q := db.permits[p];
      Some(db.(
        clock := t2,
        permits := db.permits[p := q.(state := Started)],
        outbox := db.outbox[q.outbox := db.outbox[q.outbox].(state := SubmissionStarted)]))
    else None
  }

  /** The join of #authorizedProviderRows, without and with an egress fence. */
  predicate ProviderRow(db: Db, p: Id, t: Time) {
    && p in db.permits
    && var q := db.permits[p];
    && q.outbox in db.outbox
    && var r := db.outbox[q.outbox];
    && r.installation == q.installation && r.generation == q.generation
    && InstallationLive(db, q.installation, q.generation)
    && TokenLive(db, q.installation)
    && q.state == Started && q.deadline > t
    && r.state == SubmissionStarted && r.scope == q.scope
    && ScopeLive(db, q.scope, q.installation, q.linkGeneration)
    && db.gates.delivery
  }

  predicate MayFetch(db: Db, p: Id, owner: Id, egressGeneration: nat, t: Time) {
    ProviderRow(db, p, t) && EgressHeld(db, owner, egressGeneration, t)
  }

  predicate IsOutcome(outcome: OutboxState) {
    outcome == ProviderAccepted || outcome == ProviderRejected || outcome == OutcomeUnknown
  }

  /** finishDispatchPermit keeps the lease columns; finishDispatchInTransaction clears them. */
  function Finish(db: Db, p: Id, outcome: OutboxState, keepsLease: bool, t: Time): Option<Db> {
    if && db.clock <= t
       && IsOutcome(outcome)
       && p in db.permits && db.permits[p].state == Started
       && db.permits[p].outbox in db.outbox
       && db.outbox[db.permits[p].outbox].state == SubmissionStarted
    then
      var q := db.permits[p];
      var r := db.outbox[q.outbox];
      Some(db.(
        clock := t,
        permits := db.permits[p := q.(state := Finished)],
        outbox := db.outbox[q.outbox := r.(
          state := outcome, leaseExpiresAt := if keepsLease then r.leaseExpiresAt else None)]))
    else None
  }

  /** What the worker records; an acceptance also joins the push token for its ticket, an unknown outcome goes through finishDispatchPermit. */
  function Record(db: Db, p: Id, outcome: OutboxState, t: Time): Option<Db> {
    if outcome == ProviderAccepted && (p !in db.permits || db.permits[p].installation !in db.tokens)
    then None
    else Finish(db, p, outcome, outcome == OutcomeUnknown, t)
  }

  function Returned(r: OutboxRow): OutboxRow {
    r.(state := if r.attempts < CLAIM_LIMIT then Pending else Cancelled, leaseExpiresAt := None)
  }

  /** abandonUnstartedDispatch: commits without a change when the permit is no longer active. */
  function Abandon(db: Db, p: Id, t: Time): Option<Db> {
    if db.clock > t then None
    else if p !in db.permits || db.permits[p].state != Active then Some(db.(clock := t))
    else
      var q := db.permits[p];
      var expired := db.(clock := t, permits := db.permits[p := q.(state := Expired)]);
      if q.outbox in db.outbox && db.outbox[q.outbox].state == Leased
      then Some(expired.(outbox := db.outbox[q.outbox := Returned(db.outbox[q.outbox])]))
      else Some(expired)
  }

  /* ---- recovery ------------------------------------------------------ */

  predicate HasPermit(permits: map<Id, PermitRow>, o: Id, states: set<PermitState>) {
    exists p :: p in permits && permits[p].outbox == o && permits[p].state in states
  }

  predicate HasFinishedPermit(permits: map<Id, PermitRow>, o: Id, t: Time) {
    exists p :: p in permits && permits[p].outbox == o && permits[p].state == Finished && permits[p].deadline <= t
  }

  /** Statement 1: the overdue submissions the batch picked are finished. */
  function FinishOverdue(permits: map<Id, PermitRow>, batch: set<Id>, t: Time): map<Id, PermitRow> {
    map p | p in permits ::
      if p in batch && permits[p].state == Started && permits[p].deadline <= t
      then permits[p].(state := Finished) else permits[p]
  }

  /** Statement 2: rows whose permit is finished past its deadline become unknown. */
  function SettleUnknown(outbox: map<Id, OutboxRow>, permits: map<Id, PermitRow>, t: Time): map<Id, OutboxRow> {
    map o | o in outbox ::
      if outbox[o].state == SubmissionStarted && HasFinishedPermit(permits, o, t)
      then outbox[o].(state := OutcomeUnknown, leaseExpiresAt := None) else outbox[o]
  }

  /** Statement 3: the overdue unstarted permits the batch picked expire. */
  function ExpireOverdue(permits: map<Id, PermitRow>, batch: set<Id>, t: Time): map<Id, PermitRow> {
    map p | p in permits ::
      if p in batch && permits[p].state == Active && permits[p].expiresAt <= t
      then permits[p].(state := Expired) else permits[p]
  }

  /** Statement 4: overdue leases with no live permit go back to the queue. */
  function ReturnLeases(outbox: map<Id, OutboxRow>, permits: map<Id, PermitRow>, t: Time): map<Id, OutboxRow> {
    map o | o in outbox ::
      if && outbox[o].state == Leased
         && outbox[o].leaseExpiresAt.Some? && outbox[o].leaseExpiresAt.value <= t
         && !HasPermit(permits, o, {Active, Started})
      then Returned(outbox[o]) else outbox[o]
  }

  /** recoverExpiredDispatches; the batches are what LIMIT and SKIP LOCKED selected. */
  function Recover(db: Db, finishing: set<Id>, expiring: set<Id>, t1: Time, t2: Time, t3: Time, t4: Time): Option<Db> {
    if db.clock <= t1 <= t2 <= t3 <= t4 && DeliveryEnabled(db) then
      var permits1 := FinishOverdue(db.permits, finishing, t1);
      var outbox1 := SettleUnknown(db.outbox, permits1, t2);
      var permits2 := ExpireOverdue(permits1, expiring, t3);
      var outbox2 := ReturnLeases(outbox1, permits2, t4);
      Some(db.(clock := t4, permits := permits2, outbox := outbox2))
    else None
  }

  /* ---- fences, drains and commits ------------------------------------ */

  predicate Covers(target: Scope, installation: Id, link: Option<Id>, scope: Option<Id>) {
    match target
    case OfInstallation(x) => installation == x
    case OfLink(l) => link == Some(l) || scope == Some(l)
  }

  /** The scope column after a fence touched the row. */
  function FencedScope(target: Scope, link: Option<Id>, scope: Option<Id>): Option<Id> {
    match target
    case OfInstallation(_) => Coalesce(scope, link)
    case OfLink(l) => Coalesce(scope, Some(l))
  }

  predicate HasOverduePermit(permits: map<Id, PermitRow>, o: Id, t: Time) {
    exists p :: p in permits && permits[p].outbox == o && permits[p].state == Started && permits[p].deadline <= t
  }

  function FenceRow(target: Scope, permits: map<Id, PermitRow>, force: bool, t: Time, o: Id, r: OutboxRow): OutboxRow {
    if !Covers(target, r.installation, r.link, r.scope) then r
    else r.(
      scope := FencedScope(target, r.link, r.scope),
      state :=
        if r.state == SubmissionStarted && (force || HasOverduePermit(permits, o, t)) then OutcomeUnknown
        else if r.state == Pending || r.state == Leased then Cancelled
        else r.state)
  }

  function FencePermit(target: Scope, force: bool, t: Time, q: PermitRow): PermitRow {
    if !Covers(target, q.installation, q.link, q.scope) then q
    else q.(
      scope := FencedScope(target, q.link, q.scope),
      state :=
        if q.state == Active then Expired
        else if q.state == Started && (force || q.deadline <= t) then Finished
        else q.state)
  }

  /** fenceInstallationDispatchWork and fenceAccountLinkDispatchWork: two statements, two clock reads. */
  function Fence(db: Db, target: Scope, force: bool, t1: Time, t2: Time): Db {
    db.(
      clock := t2,
      outbox := map o | o in db.outbox :: FenceRow(target, db.permits, force, t1, o, db.outbox[o]),
      permits := map p | p in db.permits :: FencePermit(target, force, t2, db.permits[p]))
  }

  /**
   startInstallationDrain, and verifyLostInstallationRevokeProof for one selected
   installation, which also drains the proven account links `alsoLinks`.
   */
  function DrainInstallation(db: Db, x: Id, alsoLinks: set<Id>, operation: Id, t1: Time, t2: Time): Option<Db> {
    if && db.clock <= t1 <= t2
       && db.gates.ready && db.gates.mutations
       && x in db.installations && db.installations[x].state == Live
       && operation !in db.operations
    then
      var drained := db.(
        installations := db.installations[x := db.installations[x].(state := Draining)],
        links := map l | l in db.links ::
          if l in alsoLinks && db.links[l].installation == x && db.links[l].state == Live
          then db.links[l].(state := Draining) else db.links[l],
        operations := db.operations[operation := Operation(OfInstallation(x), false)]);
      Some(Fence(drained, OfInstallation(x), false, t1, t2))
    else None
  }

  /** startAccountLinkDrain. */
  function DrainLink(db: Db, x: Id, l: Id, operation: Id, t1: Time, t2: Time): Option<Db> {
    if && db.clock <= t1 <= t2
       && db.gates.ready && db.gates.mutations
       && x in db.installations && db.installations[x].state == Live
       && l in db.links && db.links[l].installation == x && db.links[l].state == Live
       && operation !in db.operations
    then
      var drained := db.(
        links := db.links[l := db.links[l].(state := Draining)],
        operations := db.operations[operation := Operation(OfLink(l), false)]);
      Some(Fence(drained, OfLink(l), false, t1, t2))
    else None
  }

  /** The in-flight count of both commits: started permits whose deadline is still ahead. */
  predicate InFlight(permits: map<Id, PermitRow>, target: Scope, t: Time) {
    exists p ::
      && p in permits && permits[p].state == Started && permits[p].deadline > t
      && match target
         case OfInstallation(x) => permits[p].installation == x
         case OfLink(l) => permits[p].scope == Some(l)
  }

  /** Deleting link rows nulls the link columns that referenced them. */
  function DropLinks(db: Db, gone: set<Id>): Db {
    db.(
      links := map l | l in db.links && l !in gone :: db.links[l],
      outbox := map o | o in db.outbox ::
        if db.outbox[o].link.Some? && db.outbox[o].link.value in gone
        then db.outbox[o].(link := None) else db.outbox[o],
      permits := map p | p in db.permits ::
        if db.permits[p].link.Some? && db.permits[p].link.value in gone
        then db.permits[p].(link := None) else db.permits[p])
  }

  function LinksOf(db: Db, x: Id): set<Id> {
    set l | l in db.links && db.links[l].installation == x
  }

  /** The serializable transaction of commitInstallationRevocation. */
  function CommitInstallation(db: Db, operation: Id, t1: Time, t2: Time, t3: Time): Option<Db> {
    if && db.clock <= t1 <= t2 <= t3
       && operation in db.operations && db.operations[operation].target.OfInstallation?
    then
      var x := db.operations[operation].target.installation;
      if db.operations[operation].committed then Some(db.(clock := t3))
      else if x !in db.installations || db.installations[x].state != Draining then None
      else
        var fenced := Fence(db, OfInstallation(x), false, t1, t2);
        if InFlight(fenced.permits, OfInstallation(x), t3) then None
        else
          var dropped := DropLinks(fenced, LinksOf(fenced, x));
          Some(dropped.(
            clock := t3,
            tokens := map y | y in dropped.tokens && y != x :: dropped.tokens[y],
            installations := dropped.installations[x :=
              Installation(Inactive, dropped.installations[x].generation + 1)],
            operations := dropped.operations[operation := Operation(OfInstallation(x), true)]))
    else None
  }

  /** The serializable transaction of commitAccountLinkUnlink. */
  function CommitLink(db: Db, operation: Id, t1: Time, t2: Time, t3: Time): Option<Db> {
    if && db.clock <= t1 <= t2 <= t3
       && operation in db.operations && db.operations[operation].target.OfLink?
    then
      var l := db.operations[operation].target.link;
      if db.operations[operation].committed then Some(db.(clock := t3))
      else if l !in db.links || db.links[l].state != Draining then None
      else
        var fenced := Fence(db, OfLink(l), false, t1, t2);
        if InFlight(fenced.permits, OfLink(l), t3) then None
        else
          var dropped := DropLinks(fenced, {l});
          Some(dropped.(
            clock := t3,
            operations := dropped.operations[operation := Operation(OfLink(l), true)]))
    else None
  }

  /* ---- rows that appear ---------------------------------------------- */

  /** registerInstallation: an installation id is inserted once and never removed. */
  function Register(db: Db, x: Id): Option<Db> {
    if db.gates.ready && db.gates.mutations && x !in db.installations && x !in db.tokens
    then Some(db.(
      installations := db.installations[x := Installation(Live, 0)],
      tokens := db.tokens[x := true]))
    else None
  }

  /** verifyAccountLinkProof: a new active link row of a live installation. */
  function LinkAccount(db: Db, l: Id, x: Id): Option<Db> {
    if && db.gates.ready && db.gates.mutations
       && x in db.installations && db.installations[x].state == Live
       && l !in db.links
    then Some(db.(links := db.links[l := Link(x, Live, 0)]))
    else None
  }
}
