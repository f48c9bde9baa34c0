/** Where the two catalog stores part: a first build that ends in a failed enumeration. */
module CatalogFirstBuild {
  import opened Base
  import opened Catalog
  import opened CatalogSync
  import opened CatalogRefinement
  import opened CatalogStores

  /** Nothing of a builder dex past `total` is stored. */
  ghost predicate NothingPast(d: D1Data, total: nat) {
    && (forall r :: r in D1Records(d) ==> r.dexIndex.None? || r.dexIndex.value <= total)
    && (forall k :: k in d.errors && k.Perp? ==> k.index <= total)
  }

  lemma PruneDrops(pg: PgData, d1: D1Data, total: nat, owner: RecordId -> Source)
    requires SameBuilding(PG_EMPTY, pg, d1, owner)
    requires Get(pg.errors, PerpDexs) == Get(d1.errors, PerpDexs)
    ensures SamePublished(PgPrune(pg, total), Some(D1RetainMissing(d1, None)), owner) <==> NothingPast(d1, total)
  {
    SameWhenFirst(pg, d1, owner);
    if NothingPast(d1, total) {
      assert PgPrune(pg, total).records == pg.records;
      assert PgPrune(pg, total).errors == pg.errors;
    }
  }

  lemma SameWhenFirst(pg: PgData, d1: D1Data, owner: RecordId -> Source)
    requires SameBuilding(PG_EMPTY, pg, d1, owner)
    requires Get(pg.errors, PerpDexs) == Get(d1.errors, PerpDexs)
    ensures pg.records == D1Records(d1) && pg.errors == d1.errors
  {
    forall r
      ensures r in pg.records <==> r in D1Records(d1)
    {
      var k := SourceOf(r);
      assert SameAt(PG_EMPTY, pg, d1, k);
      assert r in pg.records <==> r in Of(pg.records, k);
      assert r in D1Records(d1) <==> r in Of(D1Records(d1), k);
    }
    forall k
      ensures Get(pg.errors, k) == Get(d1.errors, k)
    {
      if k != PerpDexs { assert SameAt(PG_EMPTY, pg, d1, k); }
    }
    SameErrors(pg.errors, d1.errors);
  }

  /** The last step of a first build that cannot enumerate, after a run of good fetches. */
  ghost predicate EndsFirstBuild(steps: seq<Step>, last: Step, owner: RecordId -> Source, totals: Totals) {
    && Honest(START, steps) && LeaseKnown(Run(START, steps), last)
    && GoodRun(steps, owner, totals) && GoodFetch(last, owner, totals)
    && Publishes(Run(START, steps).sync, last) && EnumerationFailed(last.incoming) && last.lease.published.None?
  }

  /** Over every run: when a first build ends in a failed enumeration, the two stores publish the same catalog exactly when D1 has stored nothing past the failed page's total. */
  lemma FirstBuildAgreement(steps: seq<Step>, last: Step, owner: RecordId -> Source, totals: Totals)
    requires EndsFirstBuild(steps, last, owner, totals)
    ensures var before, after, g, page := TablesRun(steps), TablesRun(steps + [last]), last.lease.building, last.incoming.page.value;
      && after.issued.sync.published == Some(g)
      && (SamePublished(PgAt(after.pg, g), Some(D1At(after.d1, g)), owner) <==>
            NothingPast(D1Page(D1At(before.d1, g), None, last.incoming, page), page.total))
  {
    RunAgrees(steps, owner, totals);
    var before, g, c, page := TablesRun(steps), last.lease.building, last.incoming, last.incoming.page.value;
    TablesLast(steps + [last], steps, last);
    assert LeaseFits(before.issued.sync, last.lease);
    PublicationRows(before, last);
    PageMerged(before, last, owner, totals);
    PruneDrops(PgPage(PgAt(before.pg, g), c, page), D1Page(D1At(before.d1, g), None, c, page), page.total, owner);
  }

  /* ---- such a run ---------------------------------------------------------- */

  const DEX_RECORD := Record(7, PerpMarket, Some(1), false, 0)
  const NOTHING := Catalog([], [], None)
  const FIRST_PAGE := Catalog([DEX_RECORD], [], Some(Page(0, 2, [Dex(1, "a")])))
  const NO_PAGE := Catalog([], [SourceError(ENUMERATION, "down", None, None)], Some(Page(1, 0, [])))

  function OwnerOf(id: RecordId): Source { Perp(1) }
  function TwoDexes(g: nat): nat { 2 }

  ghost predicate Fine(steps: seq<Step>) {
    Honest(START, steps) && GoodRun(steps, OwnerOf, TwoDexes)
  }

  lemma FineMore(steps: seq<Step>, step: Step)
    requires Fine(steps) && LeaseKnown(Run(START, steps), step) && GoodStep(Run(START, steps).sync, step, OwnerOf, TwoDexes)
    ensures Fine(steps + [step]) && TablesRun(steps + [step]) == TablesNext(TablesRun(steps), step)
  {
    var more := steps + [step];
    assert more[..|steps|] == steps;
    forall i | 0 <= i < |more|
      ensures LeaseKnown(Run(START, more[..i]), more[i]) && GoodStep(Run(START, more[..i]).sync, more[i], OwnerOf, TwoDexes)
    {
      if i < |steps| { assert more[..i] == steps[..i]; }
    }
  }

  /** The sync row of the first build between two steps of it. */
  function Progress(coreReady: bool, offset: nat, failures: nat, leaseGeneration: nat): Sync {
    Sync(None, Some(1), coreReady, offset, failures, None, leaseGeneration, 0, 0)
  }

  /** The lease the next claim returns. */
  function NextLease(s: Sync): Lease {
    Lease(0, s.leaseGeneration + 1, 1, None, s.coreReady, s.offset)
  }

  ghost predicate HoldsDex(w: Tables) {
    7 in D1At(w.d1, 1).records && D1At(w.d1, 1).records[7] == DEX_RECORD
  }

  lemma ClaimAgain(steps: seq<Step>, s: Sync)
    requires Fine(steps) && Run(START, steps).sync == s && s == Progress(s.coreReady, s.offset, s.failures, s.leaseGeneration)
    ensures var more := steps + [DoClaim(0, 0)];
      && Fine(more)
      && TablesRun(more).issued.sync == s.(owner := Some(0), leaseGeneration := s.leaseGeneration + 1, expiresAt := SYNC_LEASE_MS)
      && NextLease(s) in TablesRun(more).issued.leases
      && TablesRun(more).d1 == TablesRun(steps).d1
  {
    FineMore(steps, DoClaim(0, 0));
  }

  lemma PagesAreGood()
    ensures GoodCatalog(NOTHING, OwnerOf) && GoodCatalog(FIRST_PAGE, OwnerOf) && GoodCatalog(NO_PAGE, OwnerOf)
    ensures GoodPage(FIRST_PAGE.page.value, 2) && GoodPage(NO_PAGE.page.value, 2)
    ensures EnumerationFailed(NO_PAGE) && !EnumerationFailed(FIRST_PAGE)
    ensures !PageFailed(FIRST_PAGE, FIRST_PAGE.page.value) && PageFailed(NO_PAGE, NO_PAGE.page.value) && !CoreFailed(NOTHING)
  {
    assert LastError(NO_PAGE.errors, ENUMERATION).Some?;
  }

  /** Claim and core fetch. */
  lemma Started(steps: seq<Step>)
    requires steps == [DoClaim(0, 0), DoCore(Lease(0, 1, 1, None, false, 0), NOTHING, 0, 0)]
    ensures Fine(steps) && Run(START, steps).sync == Progress(true, 0, 0, 1)
  {
    PagesAreGood();
    var claim, core := DoClaim(0, 0), steps[1];
    assert Fine([]);
    FineMore([], claim);
    assert [] + [claim] == [claim];
    assert Run(START, [claim]).sync == Sync(None, Some(1), false, 0, 0, Some(0), 1, SYNC_LEASE_MS, 0) by {
      assert [claim][..0] == [];
    }
    assert core.lease in Run(START, [claim]).leases by {
      assert [claim][..0] == [];
    }
    FineMore([claim], core);
    assert [claim] + [core] == steps;
  }

  lemma FirstPageStores(d: D1Data)
    ensures 7 in D1Page(d, None, FIRST_PAGE, FIRST_PAGE.page.value).records
    ensures D1Page(d, None, FIRST_PAGE, FIRST_PAGE.page.value).records[7] == DEX_RECORD
  {
    var arrived := DexDeliveries(FIRST_PAGE, FIRST_PAGE.page.value.dexes);
    assert RecordsForDex(FIRST_PAGE.records, 1) == [DEX_RECORD];
    assert arrived == [Delivery(Perp(1), None, [DEX_RECORD])];
    assert arrived[1..] == [];
    assert [DEX_RECORD][1..] == [];
    assert D1ResolveAll(d, None, arrived) == D1Resolve(d, None, arrived[0]) == D1Synchronize(d, Perp(1), [DEX_RECORD]);
    assert Upsert(d.records, [DEX_RECORD]) == d.records[7 := DEX_RECORD];
    assert DEX_RECORD in [DEX_RECORD];
    assert 7 in Ids([DEX_RECORD]);
  }

  /** The page with one of two dexes. */
  lemma StoresDex(steps: seq<Step>)
    requires Fine(steps) && Run(START, steps).sync == Progress(true, 0, 0, 1)
    ensures var more := steps + [DoClaim(0, 0)] + [DoPage(NextLease(Progress(true, 0, 0, 1)), FIRST_PAGE, 0, 0)];
      Fine(more) && TablesRun(more).issued.sync == Progress(true, 1, 0, 2) && HoldsDex(TablesRun(more))
  {
    PagesAreGood();
    var s := Progress(true, 0, 0, 1);
    ClaimAgain(steps, s);
    var claimed, step := steps + [DoClaim(0, 0)], DoPage(NextLease(s), FIRST_PAGE, 0, 0);
    FineMore(claimed, step);
    FirstPageStores(D1At(TablesRun(claimed).d1, 1));
  }

  /** A page that cannot be enumerated, tried again. */
  lemma TriesAgain(steps: seq<Step>, failures: nat, g: nat)
    requires Fine(steps) && Run(START, steps).sync == Progress(true, 1, failures, g) && failures < 2 && HoldsDex(TablesRun(steps))
    ensures var more := steps + [DoClaim(0, 0)] + [DoPage(NextLease(Progress(true, 1, failures, g)), NO_PAGE, 0, 0)];
      Fine(more) && TablesRun(more).issued.sync == Progress(true, 1, failures + 1, g + 1) && HoldsDex(TablesRun(more))
  {
    PagesAreGood();
    var s := Progress(true, 1, failures, g);
    ClaimAgain(steps, s);
    var claimed, step := steps + [DoClaim(0, 0)], DoPage(NextLease(s), NO_PAGE, 0, 0);
    FineMore(claimed, step);
    assert DexDeliveries(NO_PAGE, []) == [];
  }

  /** The run ends the first build, D1 publishes the dex and Postgres does not. */
  ghost predicate Differs(steps: seq<Step>, last: Step) {
    && EndsFirstBuild(steps, last, OwnerOf, TwoDexes)
    && var w := TablesRun(steps + [last]);
    && w.issued.sync.published == Some(1)
    && DEX_RECORD in D1Records(D1At(w.d1, 1)) && DEX_RECORD !in PgAt(w.pg, 1).records
  }

  /** A run from the empty stores: the core, one of two dexes, and three failed enumerations. */
  lemma FirstBuildCanDiffer()
    ensures exists steps: seq<Step>, last: Step :: Differs(steps, last)
  {
    var steps: seq<Step> := [DoClaim(0, 0), DoCore(Lease(0, 1, 1, None, false, 0), NOTHING, 0, 0)];
    Started(steps);
    FromCore(steps);
  }

  lemma FromCore(steps: seq<Step>)
    requires Fine(steps) && Run(START, steps).sync == Progress(true, 0, 0, 1)
    ensures exists longer: seq<Step>, last: Step :: Differs(longer, last)
  {
    StoresDex(steps);
    FromFirstPage(steps + [DoClaim(0, 0)] + [DoPage(NextLease(Progress(true, 0, 0, 1)), FIRST_PAGE, 0, 0)], 0, 2);
  }

  lemma FromFirstPage(steps: seq<Step>, failures: nat, g: nat)
    requires Fine(steps) && Run(START, steps).sync == Progress(true, 1, failures, g) && failures <= 2 && g == failures + 2
    requires HoldsDex(TablesRun(steps))
    ensures exists longer: seq<Step>, last: Step :: Differs(longer, last)
    decreases 2 - failures
  {
    if failures == 2 {
      GivesUp(steps);
    } else {
      TriesAgain(steps, failures, g);
      FromFirstPage(steps + [DoClaim(0, 0)] + [DoPage(NextLease(Progress(true, 1, failures, g)), NO_PAGE, 0, 0)], failures + 1, g + 1);
    }
  }

  lemma GivesUp(steps: seq<Step>)
    requires Fine(steps) && Run(START, steps).sync == Progress(true, 1, 2, 4) && HoldsDex(TablesRun(steps))
    ensures Differs(steps + [DoClaim(0, 0)], DoPage(NextLease(Progress(true, 1, 2, 4)), NO_PAGE, 0, 0))
  {
    PagesAreGood();
    var s := Progress(true, 1, 2, 4);
    ClaimAgain(steps, s);
    var claimed, last := steps + [DoClaim(0, 0)], DoPage(NextLease(s), NO_PAGE, 0, 0);
    var before := TablesRun(claimed);
    assert Judge(before.issued.sync, NO_PAGE, NO_PAGE.page.value).Publish?;
    TablesLast(claimed + [last], claimed, last);
    PublicationRows(before, last);
    assert DexDeliveries(NO_PAGE, []) == [];
    assert 7 in D1At(TablesRun(claimed + [last]).d1, 1).records;
  }
}
