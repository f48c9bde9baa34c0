/**
 The lazily filled D1 generation, the eagerly copied Postgres generation and the
 fold of the pure merges publish the same catalog.
 */
module CatalogRefinement {
  import opened Base
  import opened Catalog

  /* ---- reading the deliveries ----------------------------------------- */

  /** Every source has at most one error. */
  predicate OneErrorPerSource(errors: seq<SourceError>) {
    forall i, j :: 0 <= i < j < |errors| ==> errors[i].source != errors[j].source
  }

  lemma {:induction false} FirstIs(errors: seq<SourceError>, name: string, i: nat)
    requires OneErrorPerSource(errors) && i < |errors| && errors[i].source == name
    ensures FirstError(errors, name) == Some(errors[i])
  {
    if i > 0 { FirstIs(errors[1..], name, i - 1); }
  }

  lemma {:induction false} LastIs(errors: seq<SourceError>, name: string, i: nat)
    requires OneErrorPerSource(errors) && i < |errors| && errors[i].source == name
    ensures LastError(errors, name) == Some(errors[i])
  {
    if i < |errors| - 1 { LastIs(errors[..|errors| - 1], name, i); }
  }

  lemma {:induction false} NoError(errors: seq<SourceError>, name: string)
    requires forall i :: 0 <= i < |errors| ==> errors[i].source != name
    ensures FirstError(errors, name) == None == LastError(errors, name)
  {
    if errors != [] {
      NoError(errors[1..], name);
      NoError(errors[..|errors| - 1], name);
    }
  }

  lemma FirstIsLast(errors: seq<SourceError>, name: string)
    requires OneErrorPerSource(errors)
    ensures FirstError(errors, name) == LastError(errors, name)
  {
    if i :| 0 <= i < |errors| && errors[i].source == name {
      FirstIs(errors, name, i);
      LastIs(errors, name, i);
    } else {
      NoError(errors, name);
    }
  }

  lemma {:induction false} DexRecords(records: seq<Record>, index: nat)
    requires index > 0
    ensures RecordsForDex(records, index) == RecordsFor(records, Perp(index))
  {
    if records != [] { DexRecords(records[1..], index); }
  }

  lemma {:induction false} RecordsForMembers(records: seq<Record>, k: Source, r: Record)
    ensures r in RecordsFor(records, k) <==> r in records && SourceOf(r) == k
  {
    if records != [] { RecordsForMembers(records[1..], k, r); }
  }

  lemma {:induction false} RecordsForKeepsDistinct(records: seq<Record>, k: Source)
    requires DistinctIds(records)
    ensures DistinctIds(RecordsFor(records, k))
  {
    if records != [] {
      RecordsForKeepsDistinct(records[1..], k);
      var rest := RecordsFor(records[1..], k);
      forall j | 0 <= j < |rest|
        ensures rest[j].id != records[0].id
      {
        RecordsForMembers(records[1..], k, rest[j]);
      }
    }
  }

  predicate DistinctIds(records: seq<Record>) {
    forall i, j :: 0 <= i < j < |records| ==> records[i].id != records[j].id
  }

  /* ---- what the world promises about deliveries ------------------------ */

  /** `owner` is the source an id belongs to for good. */
  ghost predicate GoodRecord(r: Record, owner: RecordId -> Source) {
    && owner(r.id) == SourceOf(r)
    && (!r.family.PerpMarket? ==> r.dexIndex.None?)
  }

  ghost predicate GoodCatalog(c: Catalog, owner: RecordId -> Source) {
    && OneErrorPerSource(c.errors)
    && DistinctIds(c.records)
    && forall r :: r in c.records ==> GoodRecord(r, owner)
  }

  ghost predicate GoodDelivery(a: Delivery, owner: RecordId -> Source) {
    && a.source != PerpDexs
    && DistinctIds(a.records)
    && forall r :: r in a.records ==> GoodRecord(r, owner) && SourceOf(r) == a.source
  }

  lemma CoreDeliveriesGood(c: Catalog, owner: RecordId -> Source)
    requires GoodCatalog(c, owner)
    ensures CoreDeliveries(c) == CorePayloadDeliveries(c)
    ensures forall i :: 0 <= i < |CoreDeliveries(c)| ==> GoodDelivery(CoreDeliveries(c)[i], owner)
  {
    forall i | 0 <= i < |CORE|
      ensures CoreDeliveries(c)[i] == CorePayloadDeliveries(c)[i]
      ensures GoodDelivery(CoreDeliveries(c)[i], owner)
    {
      FirstIsLast(c.errors, CORE[i].1);
      DeliveryGood(c, owner, CORE[i].0, LastError(c.errors, CORE[i].1));
    }
  }

  lemma DeliveryGood(c: Catalog, owner: RecordId -> Source, k: Source, e: Option<SourceError>)
    requires GoodCatalog(c, owner) && k != PerpDexs
    ensures GoodDelivery(Delivery(k, e, RecordsFor(c.records, k)), owner)
  {
    RecordsForKeepsDistinct(c.records, k);
    forall r | r in RecordsFor(c.records, k)
      ensures GoodRecord(r, owner) && SourceOf(r) == k
    {
      RecordsForMembers(c.records, k, r);
    }
  }

  lemma DexDeliveriesGood(c: Catalog, dexes: seq<Dex>, owner: RecordId -> Source)
    requires GoodCatalog(c, owner) && forall i :: 0 <= i < |dexes| ==> dexes[i].index > 0
    ensures DexDeliveries(c, dexes) == DexPayloadDeliveries(c, dexes)
    ensures forall i :: 0 <= i < |dexes| ==> GoodDelivery(DexDeliveries(c, dexes)[i], owner)
  {
    forall i | 0 <= i < |dexes|
      ensures DexDeliveries(c, dexes)[i] == DexPayloadDeliveries(c, dexes)[i]
      ensures GoodDelivery(DexDeliveries(c, dexes)[i], owner)
    {
      FirstIsLast(c.errors, DexErrorName(dexes[i]));
      DexRecords(c.records, dexes[i].index);
      DeliveryGood(c, owner, Perp(dexes[i].index), LastError(c.errors, DexErrorName(dexes[i])));
    }
  }

  /* ---- one source at a time -------------------------------------------- */

  lemma {:induction false} UpsertAt(rows: map<RecordId, Record>, arrived: seq<Record>, id: RecordId)
    requires DistinctIds(arrived)
    ensures id in Upsert(rows, arrived) <==> id in rows || id in Ids(arrived)
    ensures id in rows && id !in Ids(arrived) ==> Upsert(rows, arrived)[id] == rows[id]
    ensures forall r :: r in arrived && r.id == id ==> Upsert(rows, arrived)[id] == r
    decreases |arrived|
  {
    if arrived != [] {
      var rest := arrived[1..];
      UpsertAt(rows[arrived[0].id := arrived[0]], rest, id);
      assert forall r :: r in arrived <==> r == arrived[0] || r in rest;
      assert Ids(arrived) == Ids(rest) + {arrived[0].id};
      assert arrived[0].id !in Ids(rest);
    }
  }

  /** A D1 generation whose rows carry their own id and whose sources cover rows and errors. */
  ghost predicate D1Good(d: D1Data, owner: RecordId -> Source) {
    && (forall id :: id in d.records ==>
          && d.records[id].id == id
          && GoodRecord(d.records[id], owner)
          && SourceOf(d.records[id]) in d.sources)
    && (forall k :: k in d.errors ==> k == PerpDexs || k in d.sources)
    && PerpDexs !in d.sources
  }

  lemma PgReplaceOf(d: PgData, a: Delivery, owner: RecordId -> Source, j: Source)
    requires GoodDelivery(a, owner)
    ensures Of(PgReplace(d, a.source, a.records).records, j) ==
      if j == a.source then Elements(a.records) else Of(d.records, j)
  {
  }

  lemma SynchronizeRow(d: D1Data, a: Delivery, owner: RecordId -> Source, id: RecordId)
    requires D1Good(d, owner) && GoodDelivery(a, owner)
    ensures var after := D1Synchronize(d, a.source, a.records);
      && (forall r :: r in a.records && r.id == id ==> id in after.records && after.records[id] == r)
      && (id !in Ids(a.records) ==>
            (id in after.records <==> id in d.records && SourceOf(d.records[id]) != a.source)
            && (id in after.records ==> after.records[id] == d.records[id]))
  {
    UpsertAt(d.records, a.records, id);
    if id in Ids(a.records) {
      var r :| r in a.records && r.id == id;
      assert owner(id) == a.source;
    }
  }

  lemma SynchronizeGood(d: D1Data, a: Delivery, owner: RecordId -> Source)
    requires D1Good(d, owner) && GoodDelivery(a, owner)
    ensures D1Good(D1Synchronize(d, a.source, a.records), owner)
  {
    var after := D1Synchronize(d, a.source, a.records);
    forall id | id in after.records
      ensures after.records[id].id == id
      ensures GoodRecord(after.records[id], owner)
      ensures SourceOf(after.records[id]) in after.sources
    {
      SynchronizeRow(d, a, owner, id);
      if id in Ids(a.records) {
        var r :| r in a.records && r.id == id;
      }
    }
  }

  lemma SynchronizeOf(d: D1Data, a: Delivery, owner: RecordId -> Source, j: Source)
    requires D1Good(d, owner) && GoodDelivery(a, owner)
    ensures Of(D1Records(D1Synchronize(d, a.source, a.records)), j) ==
      if j == a.source then Elements(a.records) else Of(D1Records(d), j)
  {
    var after := D1Synchronize(d, a.source, a.records);
    forall r
      ensures r in Of(D1Records(after), j) <==> r in if j == a.source then Elements(a.records) else Of(D1Records(d), j)
    {
      SynchronizeRow(d, a, owner, r.id);
      SynchronizeGood(d, a, owner);
      if r in D1Records(after) {
        var id :| id in after.records && after.records[id] == r;
        assert id == r.id;
        if id in Ids(a.records) {
          var q :| q in a.records && q.id == id;
        }
      }
      if r in D1Records(d) {
        var id :| id in d.records && d.records[id] == r;
        assert id == r.id;
        if id in Ids(a.records) {
          var q :| q in a.records && q.id == id;
          assert owner(id) == a.source;
        }
      }
    }
  }

  lemma RetainGood(d: D1Data, published: Option<D1Data>, k: Source, owner: RecordId -> Source)
    requires D1Good(d, owner) && (published.Some? ==> D1Good(published.value, owner)) && k != PerpDexs
    ensures D1Good(D1Retain(d, published, k), owner)
  {
  }

  /** A row is found under its own id. */
  lemma RowOf(d: D1Data, owner: RecordId -> Source, r: Record)
    requires D1Good(d, owner)
    ensures r in D1Records(d) <==> r.id in d.records && d.records[r.id] == r
  {
    if r in D1Records(d) {
      var id :| id in d.records && d.records[id] == r;
    }
  }

  lemma RetainRow(d: D1Data, published: Option<D1Data>, k: Source, owner: RecordId -> Source, r: Record)
    requires D1Good(d, owner) && (published.Some? ==> D1Good(published.value, owner)) && k != PerpDexs
    ensures r in D1Records(D1Retain(d, published, k)) <==>
      || r in D1Records(d)
      || (published.Some? && k !in d.sources && SourceOf(r) == k && r in D1Records(published.value))
  {
    RetainGood(d, published, k, owner);
    RowOf(D1Retain(d, published, k), owner, r);
    RowOf(d, owner, r);
    if published.Some? { RowOf(published.value, owner, r); }
  }

  /** Retaining an unresolved source brings its published rows over. */
  lemma RetainOf(d: D1Data, published: Option<D1Data>, k: Source, owner: RecordId -> Source, j: Source)
    requires D1Good(d, owner) && (published.Some? ==> D1Good(published.value, owner)) && k != PerpDexs
    ensures Of(D1Records(D1Retain(d, published, k)), j) ==
      if j == k && k !in d.sources then (if published.Some? then Of(D1Records(published.value), k) else {})
      else Of(D1Records(d), j)
  {
    forall r | SourceOf(r) == j
      ensures r in D1Records(D1Retain(d, published, k)) <==>
        r in if j == k && k !in d.sources then (if published.Some? then D1Records(published.value) else {}) else D1Records(d)
    {
      RetainRow(d, published, k, owner, r);
      RowOf(d, owner, r);
    }
  }

  /* ---- the two building generations while a build is under way ---------- */

  function Get(errors: Errors, k: Source): Option<SourceError> {
    if k in errors then Some(errors[k]) else None
  }

  /** The same catalog is published. */
  ghost predicate SamePublished(pg: PgData, d1: Option<D1Data>, owner: RecordId -> Source) {
    if d1.None? then pg == PG_EMPTY
    else D1Good(d1.value, owner) && pg.records == D1Records(d1.value) && pg.errors == d1.value.errors
  }

  /** A source D1 has resolved agrees with Postgres; an unresolved one is still the published one in Postgres. */
  ghost predicate SameAt(published: PgData, pg: PgData, d1: D1Data, k: Source) {
    if k in d1.sources then Of(pg.records, k) == Of(D1Records(d1), k) && Get(pg.errors, k) == Get(d1.errors, k)
    else Of(pg.records, k) == Of(published.records, k) && Get(pg.errors, k) == Get(published.errors, k)
  }

  ghost predicate SameBuilding(published: PgData, pg: PgData, d1: D1Data, owner: RecordId -> Source) {
    && D1Good(d1, owner)
    && (forall r :: r in pg.records ==> GoodRecord(r, owner))
    && forall k :: k != PerpDexs ==> SameAt(published, pg, d1, k)
  }

  lemma RetainSameAt(published: PgData, pg: PgData, d1P: Option<D1Data>, d1: D1Data, a: Delivery, owner: RecordId -> Source, k: Source)
    requires SamePublished(published, d1P, owner) && D1Good(d1, owner) && a.source != PerpDexs && a.error.Some?
    requires k != PerpDexs && SameAt(published, pg, d1, k)
    ensures SameAt(published, PgError(pg, a.source, a.error.value), D1Error(D1Retain(d1, d1P, a.source), a.source, a.error.value), k)
  {
    RetainOf(d1, d1P, a.source, owner, k);
    var retained := D1Retain(d1, d1P, a.source);
    assert D1Records(D1Error(retained, a.source, a.error.value)) == D1Records(retained);
  }

  lemma SynchronizeSameAt(published: PgData, pg: PgData, d1: D1Data, a: Delivery, owner: RecordId -> Source, k: Source)
    requires D1Good(d1, owner) && GoodDelivery(a, owner) && k != PerpDexs && SameAt(published, pg, d1, k)
    ensures SameAt(published, PgReplace(pg, a.source, a.records), D1Synchronize(d1, a.source, a.records), k)
  {
    PgReplaceOf(pg, a, owner, k);
    SynchronizeOf(d1, a, owner, k);
  }

  lemma ResolveSameAt(published: PgData, pg: PgData, d1P: Option<D1Data>, d1: D1Data, a: Delivery, owner: RecordId -> Source, k: Source)
    requires SamePublished(published, d1P, owner) && SameBuilding(published, pg, d1, owner) && GoodDelivery(a, owner)
    requires k != PerpDexs
    ensures SameAt(published, PgResolve(pg, a), D1Resolve(d1, d1P, a), k)
  {
    if a.error.Some? {
      RetainSameAt(published, pg, d1P, d1, a, owner, k);
    } else {
      SynchronizeSameAt(published, pg, d1, a, owner, k);
    }
  }

  lemma ResolveSame(published: PgData, pg: PgData, d1P: Option<D1Data>, d1: D1Data, a: Delivery, owner: RecordId -> Source)
    requires SamePublished(published, d1P, owner) && SameBuilding(published, pg, d1, owner) && GoodDelivery(a, owner)
    ensures SameBuilding(published, PgResolve(pg, a), D1Resolve(d1, d1P, a), owner)
    ensures D1Resolve(d1, d1P, a).sources == d1.sources + {a.source}
  {
    forall k | k != PerpDexs
      ensures SameAt(published, PgResolve(pg, a), D1Resolve(d1, d1P, a), k)
    {
      ResolveSameAt(published, pg, d1P, d1, a, owner, k);
    }
    if a.error.Some? { RetainGood(d1, d1P, a.source, owner); } else { SynchronizeGood(d1, a, owner); }
  }

  function SourcesOf(arrived: seq<Delivery>): set<Source> {
    set a | a in arrived :: a.source
  }

  lemma {:induction false} ResolveAllSame(published: PgData, pg: PgData, d1P: Option<D1Data>, d1: D1Data,
                                          arrived: seq<Delivery>, owner: RecordId -> Source)
    requires SamePublished(published, d1P, owner) && SameBuilding(published, pg, d1, owner)
    requires forall i :: 0 <= i < |arrived| ==> GoodDelivery(arrived[i], owner)
    ensures SameBuilding(published, PgResolveAll(pg, arrived), D1ResolveAll(d1, d1P, arrived), owner)
    ensures D1ResolveAll(d1, d1P, arrived).sources == d1.sources + SourcesOf(arrived)
    decreases |arrived|
  {
    if arrived != [] {
      ResolveSame(published, pg, d1P, d1, arrived[0], owner);
      ResolveAllSame(published, PgResolve(pg, arrived[0]), d1P, D1Resolve(d1, d1P, arrived[0]), arrived[1..], owner);
      assert SourcesOf(arrived) == {arrived[0].source} + SourcesOf(arrived[1..]);
    }
  }

  /* ---- completed fetches ------------------------------------------------ */

  const CORE_SOURCES: set<Source> := {Perp(0), Spot, Outcome}

  function Builders(n: nat): set<Source> {
    set i | 1 <= i <= n :: Perp(i)
  }

  lemma CoreSame(published: PgData, pg: PgData, d1P: Option<D1Data>, d1: D1Data, c: Catalog, owner: RecordId -> Source)
    requires SamePublished(published, d1P, owner) && SameBuilding(published, pg, d1, owner) && GoodCatalog(c, owner)
    ensures SameBuilding(published, PgCore(pg, c), D1Core(d1, d1P, c), owner)
    ensures D1Core(d1, d1P, c).sources == d1.sources + CORE_SOURCES
  {
    CoreDeliveriesGood(c, owner);
    ResolveAllSame(published, pg, d1P, d1, CoreDeliveries(c), owner);
    var arrived := CoreDeliveries(c);
    assert SourcesOf(arrived) == CORE_SOURCES by {
      assert arrived[0] in arrived && arrived[1] in arrived && arrived[2] in arrived;
    }
  }

  /** A page lists the dexes that follow its offset, none past the N there are. */
  ghost predicate GoodPage(page: Page, n: nat) {
    && (forall i :: 0 <= i < |page.dexes| ==> page.dexes[i].index == page.offset + 1 + i)
    && page.offset + |page.dexes| <= n
  }

  lemma PageSame(published: PgData, pg: PgData, d1P: Option<D1Data>, d1: D1Data, c: Catalog, page: Page, n: nat, owner: RecordId -> Source)
    requires SamePublished(published, d1P, owner) && SameBuilding(published, pg, d1, owner) && GoodCatalog(c, owner)
    requires GoodPage(page, n)
    ensures SameBuilding(published, PgPage(pg, c, page), D1Page(d1, d1P, c, page), owner)
    ensures D1Page(d1, d1P, c, page).sources == d1.sources + (Builders(page.offset + |page.dexes|) - Builders(page.offset))
    ensures Get(PgPage(pg, c, page).errors, PerpDexs) == Get(D1Page(d1, d1P, c, page).errors, PerpDexs)
  {
    DexDeliveriesGood(c, page.dexes, owner);
    var arrived := DexDeliveries(c, page.dexes);
    ResolveAllSame(published, pg, d1P, d1, arrived, owner);
    DexSources(c, page);
    var pg1, d11 := PgResolveAll(pg, arrived), D1ResolveAll(d1, d1P, arrived);
    var pg2, d12 := PgPage(pg, c, page), D1Page(d1, d1P, c, page);
    assert D1Records(d12) == D1Records(d11);
    forall k | k != PerpDexs
      ensures SameAt(published, pg2, d12, k)
    {
      assert SameAt(published, pg1, d11, k);
    }
  }

  lemma DexSources(c: Catalog, page: Page)
    requires forall i :: 0 <= i < |page.dexes| ==> page.dexes[i].index == page.offset + 1 + i
    ensures SourcesOf(DexDeliveries(c, page.dexes)) == Builders(page.offset + |page.dexes|) - Builders(page.offset)
  {
    var arrived := DexDeliveries(c, page.dexes);
    forall k | k in Builders(page.offset + |page.dexes|) && k !in Builders(page.offset)
      ensures k in SourcesOf(arrived)
    {
      assert arrived[k.index - page.offset - 1].source == k;
    }
  }

  /* ---- publication ------------------------------------------------------ */

  /** D1 never stored a dex past the N there are; Postgres prunes what the copy brought along. */
  lemma PrunedSame(published: PgData, pg: PgData, d1: D1Data, n: nat, owner: RecordId -> Source)
    requires SameBuilding(published, pg, d1, owner)
    requires d1.sources == CORE_SOURCES + Builders(n)
    requires Get(pg.errors, PerpDexs) == Get(d1.errors, PerpDexs)
    ensures SamePublished(PgPrune(pg, n), Some(d1), owner)
  {
    var pruned := PgPrune(pg, n);
    forall r
      ensures r in pruned.records <==> r in D1Records(d1)
    {
      var k := SourceOf(r);
      assert SameAt(published, pg, d1, k);
      if r in pruned.records {
        assert GoodRecord(r, owner);
        assert k in d1.sources;
        assert r in Of(pg.records, k);
      }
      if r in D1Records(d1) {
        assert k in d1.sources;
        assert r in Of(D1Records(d1), k);
      }
    }
    forall k
      ensures Get(pruned.errors, k) == Get(d1.errors, k)
    {
      if k != PerpDexs { assert SameAt(published, pg, d1, k); }
    }
    SameErrors(pruned.errors, d1.errors);
  }

  lemma SameErrors(a: Errors, b: Errors)
    requires forall k :: Get(a, k) == Get(b, k)
    ensures a == b
  {
    forall k
      ensures k in a <==> k in b
      ensures k in a ==> a[k] == b[k]
    {
      assert Get(a, k) == Get(b, k);
    }
  }

  lemma TotalPrunesNothing(pg: PgData)
    ensures PgPrune(pg, PgTotal(pg)) == pg
  {
    var total := PgTotal(pg);
    forall r | r in pg.records && r.dexIndex.Some?
      ensures r.dexIndex.value <= total
    {
      if r.dexIndex.value > 0 {
        assert r.dexIndex.value in DexIndexes(pg.records);
      }
    }
    forall k | k in pg.errors && k.Perp?
      ensures k.index <= total
    {
      assert k.index in ErrorIndexes(pg.errors);
    }
  }

  /** Bringing over the builder sources nobody resolved. */
  lemma RetainMissingOf(d1: D1Data, p: D1Data, owner: RecordId -> Source, k: Source)
    requires D1Good(d1, owner) && D1Good(p, owner) && CORE_SOURCES <= d1.sources && k != PerpDexs
    ensures Of(D1Records(D1RetainMissing(d1, Some(p))), k) ==
      if k in d1.sources then Of(D1Records(d1), k) else if BuilderSource(k) then Of(D1Records(p), k) else {}
  {
    var after := D1RetainMissing(d1, Some(p));
    forall r | SourceOf(r) == k
      ensures r in D1Records(after) <==>
        r in if k in d1.sources then D1Records(d1) else if BuilderSource(k) then D1Records(p) else {}
    {
      if r in D1Records(after) {
        var id :| id in after.records && after.records[id] == r;
        assert id == r.id;
      }
      if r in D1Records(d1) {
        var id :| id in d1.records && d1.records[id] == r;
        assert after.records[id] == r;
      }
      if r in D1Records(p) && BuilderSource(k) && k !in d1.sources {
        var id :| id in p.records && p.records[id] == r;
        assert id == r.id && owner(id) == k && id !in d1.records;
        assert after.records[id] == r;
      }
    }
  }

  lemma RetainMissingGood(d1: D1Data, p: D1Data, owner: RecordId -> Source)
    requires D1Good(d1, owner) && D1Good(p, owner)
    ensures D1Good(D1RetainMissing(d1, Some(p)), owner)
  {
  }

  /** After a failed enumeration Postgres keeps its whole copy, and D1 catches up with it. */
  lemma RetainedSame(published: PgData, pg: PgData, p: D1Data, d1: D1Data, owner: RecordId -> Source)
    requires SamePublished(published, Some(p), owner) && SameBuilding(published, pg, d1, owner)
    requires CORE_SOURCES <= d1.sources
    requires Get(pg.errors, PerpDexs) == Get(d1.errors, PerpDexs)
    ensures SamePublished(PgPrune(pg, PgTotal(pg)), Some(D1RetainMissing(d1, Some(p))), owner)
  {
    TotalPrunesNothing(pg);
    RetainMissingGood(d1, p, owner);
    var after := D1RetainMissing(d1, Some(p));
    forall r
      ensures r in pg.records <==> r in D1Records(after)
    {
      var k := SourceOf(r);
      assert SameAt(published, pg, d1, k);
      RetainMissingOf(d1, p, owner, k);
      assert r in pg.records <==> r in Of(pg.records, k);
      assert r in D1Records(after) <==> r in Of(D1Records(after), k);
    }
    forall k
      ensures Get(pg.errors, k) == Get(after.errors, k)
    {
      if k != PerpDexs { assert SameAt(published, pg, d1, k); }
    }
    SameErrors(pg.errors, after.errors);
  }

  /* ---- the pure merges -------------------------------------------------- */

  ghost predicate SamePayload(pg: PgData, p: Payload) {
    pg.records == PayloadRecords(p) && pg.errors == p.errors
  }

  lemma {:induction false} DropMembers(records: seq<Record>, k: Source, r: Record)
    ensures r in Drop(records, k) <==> r in records && SourceOf(r) != k
  {
    if records != [] { DropMembers(records[1..], k, r); }
  }

  lemma {:induction false} KindMembers(records: seq<Record>, quarantined: bool, r: Record)
    ensures r in Kind(records, quarantined) <==> r in records && r.quarantined == quarantined
  {
    if records != [] { KindMembers(records[1..], quarantined, r); }
  }

  lemma {:induction false} KeepMembers(records: seq<Record>, total: nat, r: Record)
    ensures r in KeepRecords(records, total) <==> r in records && Keeps(r, total)
  {
    if records != [] { KeepMembers(records[1..], total, r); }
  }

  lemma MergeSourceSame(pg: PgData, p: Payload, a: Delivery)
    requires SamePayload(pg, p)
    ensures SamePayload(PgResolve(pg, a), MergeSource(p, a))
  {
    if a.error.None? {
      forall r
        ensures r in PgResolve(pg, a).records <==> r in PayloadRecords(MergeSource(p, a))
      {
        DropMembers(p.markets, a.source, r);
        DropMembers(p.quarantined, a.source, r);
        KindMembers(a.records, false, r);
        KindMembers(a.records, true, r);
      }
    }
  }

  lemma {:induction false} MergeAllSame(pg: PgData, p: Payload, arrived: seq<Delivery>)
    requires SamePayload(pg, p)
    ensures SamePayload(PgResolveAll(pg, arrived), MergeAll(p, arrived))
    decreases |arrived|
  {
    if arrived != [] {
      MergeSourceSame(pg, p, arrived[0]);
      MergeAllSame(PgResolve(pg, arrived[0]), MergeSource(p, arrived[0]), arrived[1..]);
    }
  }

  lemma MergeCoreSame(pg: PgData, p: Payload, c: Catalog, owner: RecordId -> Source)
    requires SamePayload(pg, p) && GoodCatalog(c, owner)
    ensures SamePayload(PgCore(pg, c), MergeCore(p, c))
  {
    CoreDeliveriesGood(c, owner);
    MergeAllSame(pg, p, CoreDeliveries(c));
  }

  lemma MergeBuilderSame(pg: PgData, p: Payload, c: Catalog, page: Page, n: nat, owner: RecordId -> Source)
    requires SamePayload(pg, p) && GoodCatalog(c, owner) && GoodPage(page, n)
    ensures SamePayload(PgPage(pg, c, page), MergeBuilder(p, c, page))
  {
    DexDeliveriesGood(c, page.dexes, owner);
    MergeAllSame(pg, p, DexDeliveries(c, page.dexes));
    FirstIsLast(c.errors, ENUMERATION);
  }

  lemma PruneSame(pg: PgData, p: Payload, total: nat, owner: RecordId -> Source)
    requires SamePayload(pg, p) && forall r :: r in pg.records ==> GoodRecord(r, owner)
    ensures SamePayload(PgPrune(pg, total), Prune(p, total))
  {
    forall r
      ensures r in PgPrune(pg, total).records <==> r in PayloadRecords(Prune(p, total))
    {
      KeepMembers(p.markets, total, r);
      KeepMembers(p.quarantined, total, r);
      if r in pg.records { assert GoodRecord(r, owner); }
    }
  }

  lemma TotalSame(pg: PgData, p: Payload, owner: RecordId -> Source)
    requires SamePayload(pg, p) && forall r :: r in pg.records ==> GoodRecord(r, owner)
    ensures PgTotal(pg) == PayloadTotal(p)
  {
    assert DexIndexes(pg.records) == DexIndexes(set r | r in PayloadRecords(p) && r.family.PerpMarket?);
  }
}
