/**
 The Postgres tables, the D1 tables and the fold of the pure merges, driven by one
 run of claims, core fetches, builder pages and failures.
 */
module CatalogStores {
  import opened Base
  import opened Catalog
  import opened CatalogSync
  import opened CatalogRefinement

  /** Rows per generation. A generation without rows is absent. */
  datatype Tables = Tables(issued: Issued, pg: map<nat, PgData>, d1: map<nat, D1Data>, pure: map<nat, Payload>)

  const NO_TABLES := Tables(START, map[], map[], map[])

  function PgAt(pg: map<nat, PgData>, g: nat): PgData {
    if g in pg then pg[g] else PG_EMPTY
  }

  function D1At(d1: map<nat, D1Data>, g: nat): D1Data {
    if g in d1 then d1[g] else D1_EMPTY
  }

  function PureAt(pure: map<nat, Payload>, g: nat): Payload {
    if g in pure then pure[g] else EMPTY_PAYLOAD
  }

  function PgPublished(pg: map<nat, PgData>, published: Option<nat>): PgData {
    if published.Some? then PgAt(pg, published.value) else PG_EMPTY
  }

  function D1Published(d1: map<nat, D1Data>, published: Option<nat>): Option<D1Data> {
    if published.Some? then Some(D1At(d1, published.value)) else None
  }

  function PurePublished(pure: map<nat, Payload>, published: Option<nat>): Payload {
    if published.Some? then PureAt(pure, published.value) else EMPTY_PAYLOAD
  }

  /** Steps that open a new generation. */
  predicate Starts(s: Sync, step: Step) {
    Enabled(s, step) && (step.DoBegin? || (step.DoClaim? && s.building.None?))
  }

  function From<T>(rows: map<nat, T>, oldest: int): map<nat, T> {
    map g | g in rows && g >= oldest :: rows[g]
  }

  predicate EnumerationFailed(incoming: Catalog) {
    LastError(incoming.errors, ENUMERATION).Some?
  }

  ghost function PgNext(pg: map<nat, PgData>, s: Sync, step: Step): map<nat, PgData> {
    if Starts(s, step) then pg[NextGeneration(s) := PgPublished(pg, s.published)]
    else if !Enabled(s, step) then pg
    else match step
      case DoCore(l, incoming, _, _) => pg[l.building := PgCore(PgAt(pg, l.building), incoming)]
      case DoPage(l, incoming, _, _) =>
        var page := incoming.page.value;
        var merged := PgPage(PgAt(pg, l.building), incoming, page);
        if Publishes(s, step) then
          var total := if EnumerationFailed(incoming) && l.published.Some? then PgTotal(merged) else page.total;
          From(pg[l.building := PgPrune(merged, total)], l.building - 1)
        else pg[l.building := merged]
      case _ => pg
  }

  function D1Next(d1: map<nat, D1Data>, s: Sync, step: Step): map<nat, D1Data> {
    if Starts(s, step) then d1[NextGeneration(s) := D1_EMPTY]
    else if !Enabled(s, step) then d1
    else match step
      case DoCore(l, incoming, _, _) =>
        d1[l.building := D1Core(D1At(d1, l.building), D1Published(d1, l.published), incoming)]
      case DoPage(l, incoming, _, _) =>
        var published := D1Published(d1, l.published);
        var merged := D1Page(D1At(d1, l.building), published, incoming, incoming.page.value);
        if Publishes(s, step) then
          From(d1[l.building := if EnumerationFailed(incoming) then D1RetainMissing(merged, published) else merged], l.building - 1)
        else d1[l.building := merged]
      case _ => d1
  }

  ghost function PureNext(pure: map<nat, Payload>, s: Sync, step: Step): map<nat, Payload> {
    if Starts(s, step) then pure[NextGeneration(s) := PurePublished(pure, s.published)]
    else if !Enabled(s, step) then pure
    else match step
      case DoCore(l, incoming, _, _) => pure[l.building := MergeCore(PureAt(pure, l.building), incoming)]
      case DoPage(l, incoming, _, _) =>
        var page := incoming.page.value;
        var merged := MergeBuilder(PureAt(pure, l.building), incoming, page);
        if Publishes(s, step) then
          var total := if EnumerationFailed(incoming) && l.published.Some? then PayloadTotal(merged) else page.total;
          From(pure[l.building := Prune(merged, total)], l.building - 1)
        else pure[l.building := merged]
      case _ => pure
  }

  ghost function TablesNext(w: Tables, step: Step): Tables {
    Tables(
      NextIssued(w.issued, step),
      PgNext(w.pg, w.issued.sync, step),
      D1Next(w.d1, w.issued.sync, step),
      PureNext(w.pure, w.issued.sync, step))
  }

  ghost function TablesRun(steps: seq<Step>): (w: Tables)
    ensures w.issued == Run(START, steps)
  {
    if steps == [] then NO_TABLES
    else TablesNext(TablesRun(steps[..|steps| - 1]), steps[|steps| - 1])
  }

  /* ---- snapshots -------------------------------------------------------- */

  /** No step, not even one that publishes the successor, touches a row of the published generation. */
  lemma PublishedUntouched(w: Tables, step: Step, g: nat)
    requires SyncInv(w.issued) && LeaseKnown(w.issued, step)
    requires w.issued.sync.published == Some(g)
    ensures PgAt(TablesNext(w, step).pg, g) == PgAt(w.pg, g)
    ensures D1At(TablesNext(w, step).d1, g) == D1At(w.d1, g)
    ensures PureAt(TablesNext(w, step).pure, g) == PureAt(w.pure, g)
  {
  }

  /** Nor of the generation before it, until the next publication. */
  lemma RetiredUntouched(w: Tables, step: Step, g: nat)
    requires SyncInv(w.issued) && LeaseKnown(w.issued, step)
    requires w.issued.sync.published == Some(g + 1) && !Publishes(w.issued.sync, step)
    ensures PgAt(TablesNext(w, step).pg, g) == PgAt(w.pg, g)
    ensures D1At(TablesNext(w, step).d1, g) == D1At(w.d1, g)
    ensures PureAt(TablesNext(w, step).pure, g) == PureAt(w.pure, g)
  {
  }

  /** One step, between the publication of `g` and the second one after it. */
  lemma SnapshotStep(w: Tables, step: Step, g: nat)
    requires SyncInv(w.issued) && LeaseKnown(w.issued, step)
    requires w.issued.sync.published.Some? && w.issued.sync.published.value >= g
    requires TablesNext(w, step).issued.sync.published in {Some(g), Some(g + 1)}
    ensures w.issued.sync.published in {Some(g), Some(g + 1)}
    ensures PgAt(TablesNext(w, step).pg, g) == PgAt(w.pg, g)
    ensures D1At(TablesNext(w, step).d1, g) == D1At(w.d1, g)
  {
    PublishedGrowsByOne(w.issued, step);
    if w.issued.sync.published == Some(g) {
      PublishedUntouched(w, step, g);
    } else {
      RetiredUntouched(w, step, g);
    }
  }

  lemma TablesLast(steps: seq<Step>, init: seq<Step>, last: Step)
    requires steps == init + [last]
    ensures TablesRun(steps) == TablesNext(TablesRun(init), last)
  {
    assert steps[..|steps| - 1] == init;
  }

  lemma HonestAt(steps: seq<Step>, j: nat)
    requires Honest(START, steps) && j < |steps|
    ensures SyncInv(Run(START, steps[..j])) && LeaseKnown(Run(START, steps[..j]), steps[j])
  {
    HonestPrefix(START, steps, j);
    RunKeeps(steps[..j]);
  }

  /** The state before step `j` of an honest run. */
  lemma TablesStep(steps: seq<Step>, j: nat)
    requires Honest(START, steps) && 0 < j <= |steps|
    ensures SyncInv(TablesRun(steps[..j - 1]).issued) && LeaseKnown(TablesRun(steps[..j - 1]).issued, steps[j - 1])
    ensures TablesRun(steps[..j]) == TablesNext(TablesRun(steps[..j - 1]), steps[j - 1])
  {
    HonestAt(steps, j - 1);
    TablesLast(steps[..j], steps[..j - 1], steps[j - 1]);
  }

  /** A reader of a published generation sees the same rows until two publications later. */
  lemma {:induction false} SnapshotStable(steps: seq<Step>, i: nat, j: nat, g: nat)
    requires Honest(START, steps) && i <= j <= |steps|
    requires TablesRun(steps[..i]).issued.sync.published == Some(g)
    requires TablesRun(steps[..j]).issued.sync.published in {Some(g), Some(g + 1)}
    ensures PgAt(TablesRun(steps[..j]).pg, g) == PgAt(TablesRun(steps[..i]).pg, g)
    ensures D1At(TablesRun(steps[..j]).d1, g) == D1At(TablesRun(steps[..i]).d1, g)
    decreases j
  {
    if i < j {
      TablesStep(steps, j);
      PublishedGrows(steps, i, j - 1);
      SnapshotStep(TablesRun(steps[..j - 1]), steps[j - 1], g);
      SnapshotStable(steps, i, j - 1, g);
    }
  }

  lemma PublishedNeverBack(h: Issued, step: Step)
    requires SyncInv(h) && LeaseKnown(h, step) && h.sync.published.Some?
    ensures var after := NextIssued(h, step).sync.published;
      after.Some? && h.sync.published.value <= after.value
  {
    PublishedGrowsByOne(h, step);
  }

  /** Over a run the published generation number never goes back. */
  lemma {:induction false} PublishedGrows(steps: seq<Step>, i: nat, j: nat)
    requires Honest(START, steps) && i <= j <= |steps| && Run(START, steps[..i]).sync.published.Some?
    ensures Run(START, steps[..j]).sync.published.Some?
    ensures Run(START, steps[..i]).sync.published.value <= Run(START, steps[..j]).sync.published.value
  {
    if i < j {
      PublishedGrows(steps, i, j - 1);
      TablesStep(steps, j);
      PublishedNeverBack(Run(START, steps[..j - 1]), steps[j - 1]);
    }
  }

  /** A step under a lease that is no longer held changes no table. */
  lemma DeadLeaseChangesNoRow(w: Tables, step: Step)
    requires UsesLease(step) && !Held(w.issued.sync, step.lease)
    ensures TablesNext(w, step) == w
  {
  }

  /** Over a run, every later step of a superseded lease leaves every table and the sync state as they were. */
  lemma SupersededChangesNothing(steps: seq<Step>, k: nat, l: Lease, i: nat)
    requires Honest(START, steps) && k <= i < |steps|
    requires Superseded(Run(START, steps[..k]), l)
    requires UsesLease(steps[i]) && steps[i].lease == l
    ensures TablesRun(steps[..i + 1]) == TablesRun(steps[..i])
  {
    StaysDead(steps, k, l, i);
    DeadLeaseChangesNoRow(TablesRun(steps[..i]), steps[i]);
    TablesLast(steps[..i + 1], steps[..i], steps[i]);
  }

  /* ---- refinement over whole runs ---------------------------------------- */

  /** How many builder dexes there were while a generation was built. */
  type Totals = nat -> nat

  /** What a fetch delivers. */
  ghost predicate GoodFetch(step: Step, owner: RecordId -> Source, totals: Totals) {
    match step
    case DoCore(l, incoming, _, _) => GoodCatalog(incoming, owner)
    case DoPage(l, incoming, _, _) =>
      && l.coreReady
      && GoodCatalog(incoming, owner)
      && (incoming.page.Some? ==>
            && GoodPage(incoming.page.value, totals(l.building))
            && (EnumerationFailed(incoming)
                || incoming.page.value.total == totals(l.building)))
    case _ => true
  }

  /** Enumeration fails at a publication only over an earlier generation. */
  ghost predicate GoodStep(s: Sync, step: Step, owner: RecordId -> Source, totals: Totals) {
    && GoodFetch(step, owner, totals)
    && (Publishes(s, step) && EnumerationFailed(step.incoming) ==> step.lease.published.Some?)
  }

  /** The sources a build has resolved so far. */
  ghost predicate Covers(s: Sync, d: D1Data, n: nat) {
    && (s.coreReady ==> CORE_SOURCES <= d.sources)
    && Builders(s.offset) <= d.sources <= CORE_SOURCES + Builders(n)
    && s.offset <= n
  }

  ghost predicate PublishedAgree(w: Tables, owner: RecordId -> Source) {
    var published := w.issued.sync.published;
    && SamePublished(PgPublished(w.pg, published), D1Published(w.d1, published), owner)
    && SamePayload(PgPublished(w.pg, published), PurePublished(w.pure, published))
  }

  ghost predicate BuildingAgree(w: Tables, b: nat, owner: RecordId -> Source) {
    && SameBuilding(PgPublished(w.pg, w.issued.sync.published), PgAt(w.pg, b), D1At(w.d1, b), owner)
    && SamePayload(PgAt(w.pg, b), PureAt(w.pure, b))
  }

  ghost predicate Agree(w: Tables, owner: RecordId -> Source, totals: Totals) {
    && SyncInv(w.issued)
    && PublishedAgree(w, owner)
    && (w.issued.sync.building.Some? ==>
          var b := w.issued.sync.building.value;
          BuildingAgree(w, b, owner) && Covers(w.issued.sync, D1At(w.d1, b), totals(b)))
  }

  lemma StartAgrees(w: Tables, step: Step, owner: RecordId -> Source, totals: Totals)
    requires Agree(w, owner, totals) && LeaseKnown(w.issued, step) && Starts(w.issued.sync, step)
    ensures Agree(TablesNext(w, step), owner, totals)
  {
    NextKeeps(w.issued, step);
    var b := NextGeneration(w.issued.sync);
    var after := TablesNext(w, step);
    PublishedFrame(w, after, owner);
    var p := PgPublished(w.pg, w.issued.sync.published);
    assert BuildingAgree(after, b, owner) by {
      EmptyIsSame(p, D1Published(w.d1, w.issued.sync.published), owner);
    }
    assert Builders(0) == {};
  }

  lemma EmptyIsSame(p: PgData, d1P: Option<D1Data>, owner: RecordId -> Source)
    requires SamePublished(p, d1P, owner)
    ensures SameBuilding(p, p, D1_EMPTY, owner)
  {
    if d1P.Some? {
      forall r | r in p.records
        ensures GoodRecord(r, owner)
      {
        var id :| id in d1P.value.records && d1P.value.records[id] == r;
      }
    }
  }

  /** The published generation's agreement depends only on its own rows. */
  lemma PublishedFrame(w: Tables, after: Tables, owner: RecordId -> Source)
    requires PublishedAgree(w, owner)
    requires after.issued.sync.published == w.issued.sync.published
    requires var p := w.issued.sync.published;
      && PgPublished(after.pg, p) == PgPublished(w.pg, p)
      && D1Published(after.d1, p) == D1Published(w.d1, p)
      && PurePublished(after.pure, p) == PurePublished(w.pure, p)
    ensures PublishedAgree(after, owner)
  {
  }

  lemma CoreAgrees(w: Tables, step: Step, owner: RecordId -> Source, totals: Totals)
    requires Agree(w, owner, totals) && LeaseKnown(w.issued, step)
    requires step.DoCore? && Enabled(w.issued.sync, step) && GoodStep(w.issued.sync, step, owner, totals)
    ensures Agree(TablesNext(w, step), owner, totals)
  {
    NextKeeps(w.issued, step);
    assert LeaseFits(w.issued.sync, step.lease);
    var after, b, p := TablesNext(w, step), step.lease.building, w.issued.sync.published;
    PublishedFrame(w, after, owner);
    CoreSame(PgPublished(w.pg, p), PgAt(w.pg, b), D1Published(w.d1, p), D1At(w.d1, b), step.incoming, owner);
    MergeCoreSame(PgAt(w.pg, b), PureAt(w.pure, b), step.incoming, owner);
  }

  /** The rows of the building generation once a page has been merged. */
  lemma PageMerged(w: Tables, step: Step, owner: RecordId -> Source, totals: Totals)
    requires Agree(w, owner, totals) && LeaseKnown(w.issued, step)
    requires step.DoPage? && Enabled(w.issued.sync, step) && GoodFetch(step, owner, totals)
    ensures var b, p, c, page, n := step.lease.building, w.issued.sync.published, step.incoming, step.incoming.page.value, totals(step.lease.building);
      var pg, d1 := PgPage(PgAt(w.pg, b), c, page), D1Page(D1At(w.d1, b), D1Published(w.d1, p), c, page);
      && SameBuilding(PgPublished(w.pg, p), pg, d1, owner)
      && SamePayload(pg, MergeBuilder(PureAt(w.pure, b), c, page))
      && Get(pg.errors, PerpDexs) == Get(d1.errors, PerpDexs)
      && CORE_SOURCES + Builders(page.offset + |page.dexes|) <= d1.sources <= CORE_SOURCES + Builders(n)
  {
    assert LeaseFits(w.issued.sync, step.lease);
    var b, p, c, page, n := step.lease.building, w.issued.sync.published, step.incoming, step.incoming.page.value, totals(step.lease.building);
    PageSame(PgPublished(w.pg, p), PgAt(w.pg, b), D1Published(w.d1, p), D1At(w.d1, b), c, page, n, owner);
    MergeBuilderSame(PgAt(w.pg, b), PureAt(w.pure, b), c, page, n, owner);
    PageCovers(D1At(w.d1, b).sources, page.offset, page.offset + |page.dexes|, n);
  }

  lemma PageCovers(sources: set<Source>, offset: nat, reached: nat, n: nat)
    requires CORE_SOURCES + Builders(offset) <= sources <= CORE_SOURCES + Builders(n)
    requires offset <= reached <= n
    ensures CORE_SOURCES + Builders(reached) <= sources + (Builders(reached) - Builders(offset)) <= CORE_SOURCES + Builders(n)
  {
  }

  lemma BuildersGrow(m: nat, n: nat)
    requires m <= n
    ensures Builders(m) <= Builders(n)
  {
  }

  lemma PageAgrees(w: Tables, step: Step, owner: RecordId -> Source, totals: Totals)
    requires Agree(w, owner, totals) && LeaseKnown(w.issued, step)
    requires step.DoPage? && Enabled(w.issued.sync, step) && GoodStep(w.issued.sync, step, owner, totals)
    requires !Publishes(w.issued.sync, step)
    ensures Agree(TablesNext(w, step), owner, totals)
  {
    NextKeeps(w.issued, step);
    assert LeaseFits(w.issued.sync, step.lease);
    var after, b, page := TablesNext(w, step), step.lease.building, step.incoming.page.value;
    PageMerged(w, step, owner, totals);
    PublishedFrame(w, after, owner);
    BuildersGrow(after.issued.sync.offset, page.offset + |page.dexes|);
    assert Covers(after.issued.sync, D1At(after.d1, b), totals(b));
  }

  /** The rows a publication leaves in each store. */
  lemma PublishedRowsSame(published: Option<D1Data>, pgP: PgData, pg: PgData, d1: D1Data, pure: Payload,
                          failed: bool, n: nat, owner: RecordId -> Source)
    requires SamePublished(pgP, published, owner) && SameBuilding(pgP, pg, d1, owner) && SamePayload(pg, pure)
    requires Get(pg.errors, PerpDexs) == Get(d1.errors, PerpDexs) && CORE_SOURCES <= d1.sources
    requires if failed then published.Some? else d1.sources == CORE_SOURCES + Builders(n)
    ensures var d1' := if failed then D1RetainMissing(d1, published) else d1;
      SamePublished(PgPrune(pg, if failed then PgTotal(pg) else n), Some(d1'), owner)
    ensures SamePayload(PgPrune(pg, if failed then PgTotal(pg) else n), Prune(pure, if failed then PayloadTotal(pure) else n))
  {
    if failed {
      RetainedSame(pgP, pg, published.value, d1, owner);
      TotalSame(pg, pure, owner);
      PruneSame(pg, pure, PgTotal(pg), owner);
    } else {
      PrunedSame(pgP, pg, d1, n, owner);
      PruneSame(pg, pure, n, owner);
    }
  }

  /** Which rows a publishing step writes. */
  lemma PublicationRows(w: Tables, step: Step)
    requires Publishes(w.issued.sync, step)
    ensures var b, c, page := step.lease.building, step.incoming, step.incoming.page.value;
      var pg, d1, pure := PgPage(PgAt(w.pg, b), c, page), D1Page(D1At(w.d1, b), D1Published(w.d1, step.lease.published), c, page), MergeBuilder(PureAt(w.pure, b), c, page);
      var after := TablesNext(w, step);
      var retains := EnumerationFailed(c) && step.lease.published.Some?;
      && after.issued.sync.published == Some(b) && after.issued.sync.building.None?
      && PgAt(after.pg, b) == PgPrune(pg, if retains then PgTotal(pg) else page.total)
      && D1At(after.d1, b) == (if EnumerationFailed(c) then D1RetainMissing(d1, D1Published(w.d1, step.lease.published)) else d1)
      && PureAt(after.pure, b) == Prune(pure, if retains then PayloadTotal(pure) else page.total)
  {
  }

  lemma PublicationAgrees(w: Tables, step: Step, owner: RecordId -> Source, totals: Totals)
    requires Agree(w, owner, totals) && LeaseKnown(w.issued, step)
    requires Publishes(w.issued.sync, step) && GoodStep(w.issued.sync, step, owner, totals)
    ensures PublishedAgree(TablesNext(w, step), owner)
    ensures TablesNext(w, step).issued.sync.building.None?
  {
    assert LeaseFits(w.issued.sync, step.lease);
    var b, p, c, page, n := step.lease.building, w.issued.sync.published, step.incoming, step.incoming.page.value, totals(step.lease.building);
    PublicationRows(w, step);
    PageMerged(w, step, owner, totals);
    var pg, d1, pure := PgPage(PgAt(w.pg, b), c, page), D1Page(D1At(w.d1, b), D1Published(w.d1, p), c, page), MergeBuilder(PureAt(w.pure, b), c, page);
    PublishedRowsSame(D1Published(w.d1, p), PgPublished(w.pg, p), pg, d1, pure, EnumerationFailed(c), n, owner);
  }

  lemma StepAgrees(w: Tables, step: Step, owner: RecordId -> Source, totals: Totals)
    requires Agree(w, owner, totals) && LeaseKnown(w.issued, step) && GoodStep(w.issued.sync, step, owner, totals)
    ensures Agree(TablesNext(w, step), owner, totals)
  {
    if Starts(w.issued.sync, step) {
      StartAgrees(w, step, owner, totals);
    } else if Publishes(w.issued.sync, step) {
      NextKeeps(w.issued, step);
      PublicationAgrees(w, step, owner, totals);
    } else if step.DoPage? && Enabled(w.issued.sync, step) {
      PageAgrees(w, step, owner, totals);
    } else if step.DoCore? && Enabled(w.issued.sync, step) {
      CoreAgrees(w, step, owner, totals);
    } else {
      NextKeeps(w.issued, step);
    }
  }

  /** Every step of a run meets the promises about deliveries. */
  ghost predicate GoodRun(steps: seq<Step>, owner: RecordId -> Source, totals: Totals) {
    forall i :: 0 <= i < |steps| ==> GoodStep(Run(START, steps[..i]).sync, steps[i], owner, totals)
  }

  lemma GoodPrefix(steps: seq<Step>, owner: RecordId -> Source, totals: Totals, k: nat)
    requires GoodRun(steps, owner, totals) && k <= |steps|
    ensures GoodRun(steps[..k], owner, totals)
  {
    forall i | 0 <= i < k
      ensures GoodStep(Run(START, steps[..k][..i]).sync, steps[..k][i], owner, totals)
    {
      assert steps[..k][..i] == steps[..i];
    }
  }

  lemma {:induction false} RunAgrees(steps: seq<Step>, owner: RecordId -> Source, totals: Totals)
    requires Honest(START, steps) && GoodRun(steps, owner, totals)
    ensures Agree(TablesRun(steps), owner, totals)
  {
    if steps != [] {
      var init := steps[..|steps| - 1];
      HonestPrefix(START, steps, |init|);
      GoodPrefix(steps, owner, totals, |init|);
      RunAgrees(init, owner, totals);
      StepAgrees(TablesRun(init), steps[|steps| - 1], owner, totals);
    }
  }

  /** Whatever generation is published, the three forms hold the same records and errors. */
  lemma PublishedCatalogsEqual(steps: seq<Step>, owner: RecordId -> Source, totals: Totals, g: nat)
    requires Honest(START, steps) && GoodRun(steps, owner, totals)
    requires TablesRun(steps).issued.sync.published == Some(g)
    ensures var w := TablesRun(steps);
      && PgAt(w.pg, g).records == D1Records(D1At(w.d1, g)) == PayloadRecords(PureAt(w.pure, g))
      && PgAt(w.pg, g).errors == D1At(w.d1, g).errors == PureAt(w.pure, g).errors
  {
    RunAgrees(steps, owner, totals);
  }
}
