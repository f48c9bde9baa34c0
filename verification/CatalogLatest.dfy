/**
 What readers see: over a whole run, every source of the published generation holds what its
 last fetches had delivered when that generation was published.
 */
module CatalogLatest {
  import opened Base
  import opened Catalog
  import opened CatalogSync
  import opened CatalogRefinement
  import opened CatalogStores
  import opened CatalogMeaning

  /* ---- the reference: one source at a time, without tables -------------------- */

  lemma TookUnique(before: Held, a: Held, b: Held, incoming: Catalog, k: Source, name: string)
    requires Took(before, a, incoming, k, name, true) && Took(before, b, incoming, k, name, true)
    ensures a == b
  {
    if Reported(incoming.errors, name) {
      var i: nat :| Picked(incoming.errors, name, i, true) && a.error == Some(Sanitized(incoming.errors[i]));
      var j: nat :| Picked(incoming.errors, name, j, true) && b.error == Some(Sanitized(incoming.errors[j]));
      assert i == j;
    }
  }

  /** What one fetch makes of a source. */
  ghost function Taken(before: Held, incoming: Catalog, k: Source, name: string): (after: Held)
    ensures Took(before, after, incoming, k, name, true)
  {
    LastPicked(incoming.errors, name);
    if Reported(incoming.errors, name) then
      var i: nat :| Picked(incoming.errors, name, i, true);
      Held(before.records, Some(Sanitized(incoming.errors[i])))
    else Held(Delivered(incoming, k), None)
  }

  ghost function EnumerationError(incoming: Catalog): (e: Option<SourceError>)
    ensures EnumerationTaken(e, incoming, true)
  {
    LastPicked(incoming.errors, "perpDexs");
    if Reported(incoming.errors, "perpDexs") then
      var i: nat :| Picked(incoming.errors, "perpDexs", i, true);
      Some(Sanitized(incoming.errors[i]))
    else None
  }

  lemma EnumerationUnique(a: Option<SourceError>, b: Option<SourceError>, incoming: Catalog)
    requires EnumerationTaken(a, incoming, true) && EnumerationTaken(b, incoming, true)
    ensures a == b
  {
    if Reported(incoming.errors, "perpDexs") {
      var i: nat :| Picked(incoming.errors, "perpDexs", i, true) && a == Some(Sanitized(incoming.errors[i]));
      var j: nat :| Picked(incoming.errors, "perpDexs", j, true) && b == Some(Sanitized(incoming.errors[j]));
      assert i == j;
    }
  }

  function CoreName(k: Source): Option<string> {
    match k
    case Perp(i) => if i == 0 then Some("metaAndAssetCtxs:native") else None
    case Spot => Some("spotMetaAndAssetCtxs")
    case Outcome => Some("outcomeMeta")
    case PerpDexs => None
  }

  /** A source after a page: its dex may be on it; the enumeration always is. */
  ghost function PageTakes(before: Held, incoming: Catalog, page: Page, k: Source): Held {
    if k == PerpDexs then Held(before.records, EnumerationError(incoming))
    else if i :| 0 <= i < |page.dexes| && Perp(page.dexes[i].index) == k then Taken(before, incoming, k, NameOfDex(page.dexes[i]))
    else before
  }

  /** A publication drops the dexes past the total, unless a failed enumeration retains those published before. */
  predicate Dropped(l: Lease, incoming: Catalog, total: nat, k: Source) {
    k.Perp? && k.index > total && !(Reported(incoming.errors, "perpDexs") && l.published.Some?)
  }

  /** What one step makes of source `k`. */
  ghost function Advance(before: Held, s: Sync, step: Step, k: Source): Held {
    if !Enabled(s, step) then before
    else match step
      case DoCore(_, incoming, _, _) =>
        if CoreName(k).Some? then Taken(before, incoming, k, CoreName(k).value) else before
      case DoPage(l, incoming, _, _) =>
        var page := incoming.page.value;
        if Publishes(s, step) && Dropped(l, incoming, page.total, k) then NOTHING
        else PageTakes(before, incoming, page, k)
      case _ => before
  }

  /** What the last fetches of a run delivered for source `k`. */
  ghost function Latest(steps: seq<Step>, k: Source): Held {
    if steps == [] then NOTHING
    else
      var init := steps[..|steps| - 1];
      Advance(Latest(init, k), Run(START, init).sync, steps[|steps| - 1], k)
  }

  /** The same, as of the last publication. */
  ghost function LatestPublished(steps: seq<Step>, k: Source): Held {
    if steps == [] then NOTHING
    else
      var init, last := steps[..|steps| - 1], steps[|steps| - 1];
      if Publishes(Run(START, init).sync, last) then Latest(steps, k) else LatestPublished(init, k)
  }

  /* ---- fetches ------------------------------------------------------------------ */

  /** Only perpetuals carry a dex index, and a page lists builder dexes. */
  predicate PlainFetch(step: Step) {
    step.DoCore? || step.DoPage? ==>
      && (forall r :: r in step.incoming.records ==> Plain(r))
      && (step.DoPage? && step.incoming.page.Some? ==> BuilderDexes(step.incoming.page.value.dexes))
  }

  predicate Plain(r: Record) {
    !r.family.PerpMarket? ==> r.dexIndex.None?
  }

  ghost predicate PlainRun(steps: seq<Step>) {
    forall i :: 0 <= i < |steps| ==> PlainFetch(steps[i])
  }

  /* ---- Postgres step by step --------------------------------------------------------- */

  lemma CoreHolds(d: PgData, incoming: Catalog, k: Source)
    ensures PgHeld(PgCore(d, incoming), k) ==
      if CoreName(k).Some? then Taken(PgHeld(d, k), incoming, k, CoreName(k).value) else PgHeld(d, k)
  {
    PgCoreMeans(d, incoming);
    if CoreName(k).Some? {
      TookUnique(PgHeld(d, k), PgHeld(PgCore(d, incoming), k), Taken(PgHeld(d, k), incoming, k, CoreName(k).value), incoming, k, CoreName(k).value);
    } else if k != PerpDexs {
      var before, after := j => PgHeld(d, j), j => PgHeld(PgCore(d, incoming), j);
      assert CoreTaken(before, after, incoming, true);
      assert after(k) == before(k);
    }
  }

  lemma NoRecordsOfEnumeration(d: PgData)
    ensures PgHeld(d, PerpDexs).records == {}
  {
  }

  lemma PageHolds(d: PgData, incoming: Catalog, page: Page, k: Source)
    requires BuilderDexes(page.dexes)
    ensures PgHeld(PgPage(d, incoming, page), k) == PageTakes(PgHeld(d, k), incoming, page, k)
  {
    var after := PgPage(d, incoming, page);
    PgPageMeans(d, incoming, page);
    if k == PerpDexs {
      EnumerationUnique(Get(after.errors, k), EnumerationError(incoming), incoming);
      NoRecordsOfEnumeration(d);
      NoRecordsOfEnumeration(after);
    } else if i :| 0 <= i < |page.dexes| && Perp(page.dexes[i].index) == k {
      TookUnique(PgHeld(d, k), PgHeld(after, k), Taken(PgHeld(d, k), incoming, k, NameOfDex(page.dexes[i])), incoming, k, NameOfDex(page.dexes[i]));
    } else {
      var held, held' := j => PgHeld(d, j), j => PgHeld(after, j);
      assert PageTaken(held, held', incoming, page, true);
      assert held'(k) == held(k);
    }
  }

  lemma PruneHolds(d: PgData, total: nat, k: Source)
    requires forall r :: r in d.records ==> Plain(r)
    ensures PgHeld(PgPrune(d, total), k) == if k.Perp? && k.index > total then NOTHING else PgHeld(d, k)
  {
  }

  lemma CorePlain(d: PgData, incoming: Catalog)
    requires forall r :: r in d.records || r in incoming.records ==> Plain(r)
    ensures forall r :: r in PgCore(d, incoming).records ==> Plain(r)
  {
    forall r | r in PgCore(d, incoming).records
      ensures Plain(r)
    {
      var k := SourceOf(r);
      CoreHolds(d, incoming, k);
      assert r in PgHeld(PgCore(d, incoming), k).records;
    }
  }

  lemma PagePlain(d: PgData, incoming: Catalog, page: Page)
    requires BuilderDexes(page.dexes) && forall r :: r in d.records || r in incoming.records ==> Plain(r)
    ensures forall r :: r in PgPage(d, incoming, page).records ==> Plain(r)
  {
    forall r | r in PgPage(d, incoming, page).records
      ensures Plain(r)
    {
      var k := SourceOf(r);
      PageHolds(d, incoming, page, k);
      assert r in PgHeld(PgPage(d, incoming, page), k).records;
    }
  }

  /** The tables hold the reference. */
  ghost predicate Holds(w: Tables, latest: Source -> Held, published: Source -> Held) {
    var s := w.issued.sync;
    && (forall k :: PgHeld(PgPublished(w.pg, s.published), k) == published(k))
    && (forall r :: r in PgPublished(w.pg, s.published).records ==> Plain(r))
    && (if s.building.Some?
        then (forall k :: PgHeld(PgAt(w.pg, s.building.value), k) == latest(k))
             && (forall r :: r in PgAt(w.pg, s.building.value).records ==> Plain(r))
        else forall k :: latest(k) == published(k))
  }

  lemma CoreStepHolds(w: Tables, step: Step, latest: Source -> Held, published: Source -> Held, latest': Source -> Held)
    requires Holds(w, latest, published) && SyncInv(w.issued) && LeaseKnown(w.issued, step)
    requires step.DoCore? && Enabled(w.issued.sync, step) && PlainFetch(step)
    requires forall k :: latest'(k) == Advance(latest(k), w.issued.sync, step, k)
    ensures Holds(TablesNext(w, step), latest', published)
  {
    var b := step.lease.building;
    var d, after := PgAt(w.pg, b), TablesNext(w, step);
    assert LeaseFits(w.issued.sync, step.lease);
    assert PgAt(after.pg, b) == PgCore(d, step.incoming);
    CorePlain(d, step.incoming);
    forall k
      ensures PgHeld(PgAt(after.pg, b), k) == latest'(k)
    {
      CoreHolds(d, step.incoming, k);
    }
  }

  lemma PageStepHolds(w: Tables, step: Step, latest: Source -> Held, published: Source -> Held, latest': Source -> Held)
    requires Holds(w, latest, published) && SyncInv(w.issued) && LeaseKnown(w.issued, step)
    requires step.DoPage? && Enabled(w.issued.sync, step) && PlainFetch(step) && !Publishes(w.issued.sync, step)
    requires forall k :: latest'(k) == Advance(latest(k), w.issued.sync, step, k)
    ensures Holds(TablesNext(w, step), latest', published)
  {
    var b, page := step.lease.building, step.incoming.page.value;
    var d, after := PgAt(w.pg, b), TablesNext(w, step);
    assert LeaseFits(w.issued.sync, step.lease);
    assert PgAt(after.pg, b) == PgPage(d, step.incoming, page);
    PagePlain(d, step.incoming, page);
    forall k
      ensures PgHeld(PgAt(after.pg, b), k) == latest'(k)
    {
      PageHolds(d, step.incoming, page, k);
    }
  }

  lemma PublicationHolds(w: Tables, step: Step, latest: Source -> Held, published: Source -> Held, latest': Source -> Held)
    requires Holds(w, latest, published) && SyncInv(w.issued) && LeaseKnown(w.issued, step)
    requires PlainFetch(step) && Publishes(w.issued.sync, step)
    requires forall k :: latest'(k) == Advance(latest(k), w.issued.sync, step, k)
    ensures Holds(TablesNext(w, step), latest', latest')
  {
    var b, page := step.lease.building, step.incoming.page.value;
    var d, after := PgAt(w.pg, b), TablesNext(w, step);
    var merged := PgPage(d, step.incoming, page);
    assert LeaseFits(w.issued.sync, step.lease);
    PublicationRows(w, step);
    LastPicked(step.incoming.errors, "perpDexs");
    PagePlain(d, step.incoming, page);
    TotalPrunesNothing(merged);
    forall k
      ensures PgHeld(PgAt(after.pg, b), k) == latest'(k)
    {
      PageHolds(d, step.incoming, page, k);
      PruneHolds(merged, page.total, k);
    }
  }

  lemma OtherStepHolds(w: Tables, step: Step, latest: Source -> Held, published: Source -> Held)
    requires Holds(w, latest, published) && SyncInv(w.issued) && LeaseKnown(w.issued, step)
    requires Enabled(w.issued.sync, step) ==> !step.DoCore? && !step.DoPage?
    ensures Holds(TablesNext(w, step), latest, published)
  {
    if Starts(w.issued.sync, step) {
      assert PgAt(TablesNext(w, step).pg, NextGeneration(w.issued.sync)) == PgPublished(w.pg, w.issued.sync.published);
    }
  }

  lemma StepHolds(w: Tables, step: Step, latest: Source -> Held, published: Source -> Held,
                  latest': Source -> Held, published': Source -> Held)
    requires Holds(w, latest, published) && SyncInv(w.issued) && LeaseKnown(w.issued, step) && PlainFetch(step)
    requires forall k :: latest'(k) == Advance(latest(k), w.issued.sync, step, k)
    requires forall k :: published'(k) == if Publishes(w.issued.sync, step) then latest'(k) else published(k)
    ensures Holds(TablesNext(w, step), latest', published')
  {
    var s := w.issued.sync;
    if Publishes(s, step) {
      PublicationHolds(w, step, latest, published, latest');
    } else if step.DoPage? && Enabled(s, step) {
      PageStepHolds(w, step, latest, published, latest');
    } else if step.DoCore? && Enabled(s, step) {
      CoreStepHolds(w, step, latest, published, latest');
    } else {
      OtherStepHolds(w, step, latest, published);
    }
  }

  /** Postgres holds the reference after every run. */
  lemma {:induction false} RunHolds(steps: seq<Step>)
    requires Honest(START, steps) && PlainRun(steps)
    ensures Holds(TablesRun(steps), k => Latest(steps, k), k => LatestPublished(steps, k))
  {
    if steps != [] {
      var init, last := steps[..|steps| - 1], steps[|steps| - 1];
      HonestPrefix(START, steps, |init|);
      RunHolds(init);
      RunKeeps(init);
      StepHolds(TablesRun(init), last, k => Latest(init, k), k => LatestPublished(init, k),
                k => Latest(steps, k), k => LatestPublished(steps, k));
    }
  }

  lemma GoodIsPlain(steps: seq<Step>, owner: RecordId -> Source, totals: Totals)
    requires GoodRun(steps, owner, totals)
    ensures PlainRun(steps)
  {
    forall i | 0 <= i < |steps|
      ensures PlainFetch(steps[i])
    {
      assert GoodStep(Run(START, steps[..i]).sync, steps[i], owner, totals);
    }
  }

  lemma PostgresIsLatest(steps: seq<Step>, g: nat, k: Source)
    requires Honest(START, steps) && PlainRun(steps)
    requires TablesRun(steps).issued.sync.published == Some(g)
    ensures PgHeld(PgAt(TablesRun(steps).pg, g), k) == LatestPublished(steps, k)
  {
    RunHolds(steps);
    var published := j => LatestPublished(steps, j);
    assert published(k) == LatestPublished(steps, k);
  }

  /** Every form of the published generation holds, source by source, what was fetched last when it was published. */
  lemma PublishedIsLatest(steps: seq<Step>, owner: RecordId -> Source, totals: Totals, g: nat, k: Source)
    requires Honest(START, steps) && GoodRun(steps, owner, totals)
    requires TablesRun(steps).issued.sync.published == Some(g)
    ensures var w, held := TablesRun(steps), LatestPublished(steps, k);
      && Of(PgAt(w.pg, g).records, k) == held.records && Get(PgAt(w.pg, g).errors, k) == held.error
      && Of(D1Records(D1At(w.d1, g)), k) == held.records && Get(D1At(w.d1, g).errors, k) == held.error
      && Of(PayloadRecords(PureAt(w.pure, g)), k) == held.records && Get(PureAt(w.pure, g).errors, k) == held.error
  {
    GoodIsPlain(steps, owner, totals);
    PostgresIsLatest(steps, g, k);
    PublishedCatalogsEqual(steps, owner, totals, g);
  }
}
