/**
 What the stores hold: for every source, the records its last successful fetch delivered and
 the error its last failed fetch reported since. Said of one step of each store, and of the
 published generation over whole runs.
 */
module CatalogMeaning {
  import opened Base
  import opened Catalog
  import opened CatalogSync
  import opened CatalogRefinement
  import opened CatalogStores

  /* ---- reading a fetch ------------------------------------------------------ */

  /** The record belongs to the source: a perpetual by its dex, the native dex when it names none. */
  predicate Belongs(r: Record, k: Source) {
    match k
    case Perp(i) => r.family.PerpMarket? && (r.dexIndex == Some(i) || (r.dexIndex.None? && i == 0))
    case Spot => r.family.SpotMarket?
    case Outcome => r.family.OutcomeMarket?
    case PerpDexs => false
  }

  function Delivered(incoming: Catalog, k: Source): set<Record> {
    set r | r in incoming.records && Belongs(r, k)
  }

  /** Error `i` is the last, or the first, that names the fetch. */
  predicate Picked(errors: seq<SourceError>, name: string, i: nat, last: bool) {
    && i < |errors| && errors[i].source == name
    && forall j :: 0 <= j < |errors| && (if last then i < j else j < i) ==> errors[j].source != name
  }

  predicate Reported(errors: seq<SourceError>, name: string) {
    exists i :: 0 <= i < |errors| && errors[i].source == name
  }

  /** What a generation holds of one source. */
  datatype Held = Held(records: set<Record>, error: Option<SourceError>)

  const NOTHING := Held({}, None)

  function PgHeld(d: PgData, k: Source): Held {
    Held(Of(d.records, k), Get(d.errors, k))
  }

  /** In D1 an unresolved source is still the published one. */
  function D1Held(d: D1Data, published: Option<D1Data>, k: Source): Held {
    Held(if k in d.sources then Of(D1Records(d), k) else if published.Some? then Of(D1Records(published.value), k) else {},
         Get(d.errors, k))
  }

  function PayloadHeld(p: Payload, k: Source): Held {
    Held(Of(PayloadRecords(p), k), Get(p.errors, k))
  }

  /** A fetch that reported an error keeps the records and stores the error; any other one replaces the records and clears it. */
  ghost predicate Took(before: Held, after: Held, incoming: Catalog, k: Source, name: string, last: bool) {
    if Reported(incoming.errors, name)
    then
      && after.records == before.records
      && exists i: nat :: Picked(incoming.errors, name, i, last) && after.error == Some(Sanitized(incoming.errors[i]))
    else after == Held(Delivered(incoming, k), None)
  }

  lemma {:induction false} LastPicked(errors: seq<SourceError>, name: string)
    ensures LastError(errors, name).Some? <==> Reported(errors, name)
    ensures Reported(errors, name) ==> exists i: nat :: Picked(errors, name, i, true) && LastError(errors, name) == Some(errors[i])
  {
    if errors != [] {
      var n := |errors| - 1;
      LastPicked(errors[..n], name);
      if errors[n].source == name {
        assert Picked(errors, name, n, true);
      } else if i: nat :| Picked(errors[..n], name, i, true) && LastError(errors[..n], name) == Some(errors[..n][i]) {
        assert Picked(errors, name, i, true);
      }
    }
  }

  lemma {:induction false} FirstPicked(errors: seq<SourceError>, name: string)
    ensures FirstError(errors, name).Some? <==> Reported(errors, name)
    ensures Reported(errors, name) ==> exists i: nat :: Picked(errors, name, i, false) && FirstError(errors, name) == Some(errors[i])
  {
    if errors != [] {
      FirstPicked(errors[1..], name);
      if errors[0].source == name {
        assert Picked(errors, name, 0, false);
      } else if i: nat :| Picked(errors[1..], name, i, false) && FirstError(errors[1..], name) == Some(errors[1..][i]) {
        assert errors[i + 1] == errors[1..][i];
        assert forall j :: 0 < j < i + 1 ==> errors[j] == errors[1..][j - 1];
        assert Picked(errors, name, i + 1, false);
      }
    }
  }

  lemma SourceIsOwner(r: Record, k: Source)
    ensures SourceOf(r) == k <==> Belongs(r, k)
  {
  }

  lemma DeliveredAre(incoming: Catalog, k: Source)
    ensures Elements(RecordsFor(incoming.records, k)) == Delivered(incoming, k)
  {
    forall r
      ensures r in RecordsFor(incoming.records, k) <==> r in incoming.records && Belongs(r, k)
    {
      RecordsForMembers(incoming.records, k, r);
      SourceIsOwner(r, k);
    }
  }

  /** An error is kept short, never blank, with a sensible status and delay, and as it is when it was so already. */
  lemma SanitizedIs(e: SourceError)
    ensures var s := Sanitized(e);
      && s.source <= e.source && |s.source| == (if |e.source| < 256 then |e.source| else 256)
      && (if e.message == "" then s.message == "catalog source failed"
          else s.message <= e.message && |s.message| == (if |e.message| < 1024 then |e.message| else 1024))
      && s.status == (if e.status.Some? && 400 <= e.status.value < 600 then e.status else None)
      && s.retryAfterMs.Some? == e.retryAfterMs.Some?
      && (s.retryAfterMs.Some? ==>
            && 1_000 <= s.retryAfterMs.value <= 86_400_000
            && (1_000 <= e.retryAfterMs.value <= 86_400_000 ==> s.retryAfterMs == e.retryAfterMs)
            && (e.retryAfterMs.value < 1_000 ==> s.retryAfterMs.value == 1_000)
            && (e.retryAfterMs.value > 86_400_000 ==> s.retryAfterMs.value == 86_400_000))
      && Sanitized(s) == s
  {
  }

  /* ---- a list of deliveries ---------------------------------------------------- */

  /** What one delivery makes of its source. */
  function Take(h: Held, a: Delivery): Held {
    if a.error.Some? then Held(h.records, Some(Sanitized(a.error.value))) else Held(Elements(a.records), None)
  }

  predicate OwnRecords(a: Delivery) {
    forall r :: r in a.records ==> SourceOf(r) == a.source
  }

  predicate DistinctSources(arrived: seq<Delivery>) {
    forall i, j :: 0 <= i < j < |arrived| ==> arrived[i].source != arrived[j].source
  }

  lemma PgResolveHeld(d: PgData, a: Delivery, j: Source)
    requires OwnRecords(a)
    ensures PgHeld(PgResolve(d, a), j) == if j == a.source then Take(PgHeld(d, j), a) else PgHeld(d, j)
  {
  }

  lemma {:induction false} PgResolveAllHeld(d: PgData, arrived: seq<Delivery>, j: Source)
    requires DistinctSources(arrived) && forall i :: 0 <= i < |arrived| ==> OwnRecords(arrived[i])
    ensures (forall i :: 0 <= i < |arrived| ==> arrived[i].source != j) ==> PgHeld(PgResolveAll(d, arrived), j) == PgHeld(d, j)
    ensures forall i :: 0 <= i < |arrived| && arrived[i].source == j ==> PgHeld(PgResolveAll(d, arrived), j) == Take(PgHeld(d, j), arrived[i])
    decreases |arrived|
  {
    if arrived != [] {
      PgResolveHeld(d, arrived[0], j);
      PgResolveAllHeld(PgResolve(d, arrived[0]), arrived[1..], j);
      assert forall i :: 1 <= i < |arrived| ==> arrived[i] == arrived[1..][i - 1];
    }
  }

  ghost predicate PublishedGood(published: Option<D1Data>, owner: RecordId -> Source) {
    published.Some? ==> D1Good(published.value, owner)
  }

  lemma D1ResolveHeld(d: D1Data, published: Option<D1Data>, a: Delivery, owner: RecordId -> Source, j: Source)
    requires D1Good(d, owner) && PublishedGood(published, owner) && GoodDelivery(a, owner) && j != PerpDexs
    ensures D1Good(D1Resolve(d, published, a), owner)
    ensures D1Held(D1Resolve(d, published, a), published, j) ==
      if j == a.source then Take(D1Held(d, published, j), a) else D1Held(d, published, j)
  {
    if a.error.Some? {
      var retained := D1Retain(d, published, a.source);
      RetainGood(d, published, a.source, owner);
      RetainOf(d, published, a.source, owner, j);
      assert D1Records(D1Resolve(d, published, a)) == D1Records(retained);
    } else {
      SynchronizeGood(d, a, owner);
      SynchronizeOf(d, a, owner, j);
    }
  }

  lemma {:induction false} D1ResolveAllHeld(d: D1Data, published: Option<D1Data>, arrived: seq<Delivery>, owner: RecordId -> Source, j: Source)
    requires D1Good(d, owner) && PublishedGood(published, owner) && j != PerpDexs
    requires DistinctSources(arrived) && forall i :: 0 <= i < |arrived| ==> GoodDelivery(arrived[i], owner)
    ensures (forall i :: 0 <= i < |arrived| ==> arrived[i].source != j) ==>
      D1Held(D1ResolveAll(d, published, arrived), published, j) == D1Held(d, published, j)
    ensures forall i :: 0 <= i < |arrived| && arrived[i].source == j ==>
      D1Held(D1ResolveAll(d, published, arrived), published, j) == Take(D1Held(d, published, j), arrived[i])
    decreases |arrived|
  {
    if arrived != [] {
      D1ResolveHeld(d, published, arrived[0], owner, j);
      D1ResolveAllHeld(D1Resolve(d, published, arrived[0]), published, arrived[1..], owner, j);
      assert forall i :: 1 <= i < |arrived| ==> arrived[i] == arrived[1..][i - 1];
    }
  }

  /* ---- one completed core fetch -------------------------------------------------- */

  /** What a core fetch makes of every source, from what was held before. */
  ghost predicate CoreTaken(before: Source -> Held, after: Source -> Held, incoming: Catalog, last: bool) {
    && Took(before(Perp(0)), after(Perp(0)), incoming, Perp(0), "metaAndAssetCtxs:native", last)
    && Took(before(Spot), after(Spot), incoming, Spot, "spotMetaAndAssetCtxs", last)
    && Took(before(Outcome), after(Outcome), incoming, Outcome, "outcomeMeta", last)
    && forall k :: k !in {Perp(0), Spot, Outcome, PerpDexs} ==> after(k) == before(k)
  }

  /** `find` of the merges, the lookup of the stores. */
  function Find(errors: seq<SourceError>, name: string, last: bool): Option<SourceError> {
    if last then LastError(errors, name) else FirstError(errors, name)
  }

  lemma TakeTook(h: Held, incoming: Catalog, k: Source, name: string, last: bool)
    ensures Took(h, Take(h, Delivery(k, Find(incoming.errors, name, last), RecordsFor(incoming.records, k))), incoming, k, name, last)
  {
    LastPicked(incoming.errors, name);
    FirstPicked(incoming.errors, name);
    DeliveredAre(incoming, k);
  }

  lemma OwnDelivery(incoming: Catalog, k: Source, e: Option<SourceError>)
    ensures OwnRecords(Delivery(k, e, RecordsFor(incoming.records, k)))
  {
    forall r | r in RecordsFor(incoming.records, k)
      ensures SourceOf(r) == k
    {
      RecordsForMembers(incoming.records, k, r);
    }
  }

  /** The deliveries of a core fetch. */
  function CoreList(incoming: Catalog, last: bool): seq<Delivery> {
    [Delivery(Perp(0), Find(incoming.errors, "metaAndAssetCtxs:native", last), RecordsFor(incoming.records, Perp(0))),
     Delivery(Spot, Find(incoming.errors, "spotMetaAndAssetCtxs", last), RecordsFor(incoming.records, Spot)),
     Delivery(Outcome, Find(incoming.errors, "outcomeMeta", last), RecordsFor(incoming.records, Outcome))]
  }

  lemma CoreLists(incoming: Catalog)
    ensures CoreDeliveries(incoming) == CoreList(incoming, true)
    ensures CorePayloadDeliveries(incoming) == CoreList(incoming, false)
  {
  }

  /** What the list makes of one source. */
  function TakeListed(h: Held, incoming: Catalog, last: bool, j: Source): Held {
    match j
    case Perp(i) => if i == 0 then Take(h, CoreList(incoming, last)[0]) else h
    case Spot => Take(h, CoreList(incoming, last)[1])
    case Outcome => Take(h, CoreList(incoming, last)[2])
    case PerpDexs => h
  }

  lemma ListedTaken(before: Source -> Held, after: Source -> Held, incoming: Catalog, last: bool)
    requires forall j :: j != PerpDexs ==> after(j) == TakeListed(before(j), incoming, last, j)
    ensures CoreTaken(before, after, incoming, last)
  {
    TakeTook(before(Perp(0)), incoming, Perp(0), "metaAndAssetCtxs:native", last);
    TakeTook(before(Spot), incoming, Spot, "spotMetaAndAssetCtxs", last);
    TakeTook(before(Outcome), incoming, Outcome, "outcomeMeta", last);
  }

  lemma PgListTaken(d: PgData, incoming: Catalog, last: bool, j: Source)
    ensures PgHeld(PgResolveAll(d, CoreList(incoming, last)), j) == TakeListed(PgHeld(d, j), incoming, last, j)
  {
    var arrived := CoreList(incoming, last);
    forall i | 0 <= i < |arrived|
      ensures OwnRecords(arrived[i])
    {
      OwnDelivery(incoming, arrived[i].source, arrived[i].error);
    }
    PgResolveAllHeld(d, arrived, j);
    assert arrived[0].source == Perp(0) && arrived[1].source == Spot && arrived[2].source == Outcome;
  }

  /** Postgres, for any fetch at all. */
  lemma PgCoreMeans(d: PgData, incoming: Catalog)
    ensures CoreTaken(k => PgHeld(d, k), k => PgHeld(PgCore(d, incoming), k), incoming, true)
    ensures PgHeld(PgCore(d, incoming), PerpDexs) == PgHeld(d, PerpDexs)
  {
    CoreLists(incoming);
    forall j
      ensures PgHeld(PgCore(d, incoming), j) == TakeListed(PgHeld(d, j), incoming, true, j)
    {
      PgListTaken(d, incoming, true, j);
    }
    ListedTaken(k => PgHeld(d, k), k => PgHeld(PgCore(d, incoming), k), incoming, true);
  }

  /** The pure merge, for any fetch at all; it takes the first error of a source. */
  lemma PayloadCoreMeans(p: Payload, incoming: Catalog)
    ensures CoreTaken(k => PayloadHeld(p, k), k => PayloadHeld(MergeCore(p, incoming), k), incoming, false)
  {
    CoreLists(incoming);
    var d := PgData(PayloadRecords(p), p.errors);
    MergeAllSame(d, p, CorePayloadDeliveries(incoming));
    forall j
      ensures PayloadHeld(MergeCore(p, incoming), j) == TakeListed(PayloadHeld(p, j), incoming, false, j)
    {
      PgListTaken(d, incoming, false, j);
    }
    ListedTaken(k => PayloadHeld(p, k), k => PayloadHeld(MergeCore(p, incoming), k), incoming, false);
  }

  lemma D1ListTaken(d: D1Data, published: Option<D1Data>, incoming: Catalog, owner: RecordId -> Source, j: Source)
    requires D1Good(d, owner) && PublishedGood(published, owner) && GoodCatalog(incoming, owner) && j != PerpDexs
    ensures D1Held(D1Core(d, published, incoming), published, j) == TakeListed(D1Held(d, published, j), incoming, true, j)
  {
    CoreLists(incoming);
    CoreDeliveriesGood(incoming, owner);
    var arrived := CoreList(incoming, true);
    assert arrived[0].source == Perp(0) && arrived[1].source == Spot && arrived[2].source == Outcome;
    D1ResolveAllHeld(d, published, arrived, owner, j);
  }

  /** D1, where a source not resolved yet is the published one. */
  lemma D1CoreMeans(d: D1Data, published: Option<D1Data>, incoming: Catalog, owner: RecordId -> Source)
    requires D1Good(d, owner) && PublishedGood(published, owner) && GoodCatalog(incoming, owner)
    ensures CoreTaken(k => D1Held(d, published, k), k => D1Held(D1Core(d, published, incoming), published, k), incoming, true)
  {
    forall j | j != PerpDexs
      ensures D1Held(D1Core(d, published, incoming), published, j) == TakeListed(D1Held(d, published, j), incoming, true, j)
    {
      D1ListTaken(d, published, incoming, owner, j);
    }
    ListedTaken(k => D1Held(d, published, k), k => D1Held(D1Core(d, published, incoming), published, k), incoming, true);
  }

  /** Rows and fetch are of the kind D1 holds, for some owner of ids. */
  ghost predicate D1Fit(d: D1Data, published: Option<D1Data>, incoming: Catalog) {
    exists owner: RecordId -> Source :: D1Good(d, owner) && PublishedGood(published, owner) && GoodCatalog(incoming, owner)
  }

  lemma D1CoreFits(d: D1Data, published: Option<D1Data>, incoming: Catalog)
    requires D1Fit(d, published, incoming)
    ensures CoreTaken(k => D1Held(d, published, k), k => D1Held(D1Core(d, published, incoming), published, k), incoming, true)
  {
    var owner: RecordId -> Source :| D1Good(d, owner) && PublishedGood(published, owner) && GoodCatalog(incoming, owner);
    D1CoreMeans(d, published, incoming, owner);
  }

  /* ---- one completed page ------------------------------------------------------------ */

  /** The name under which the fetch of a dex reports errors. */
  function NameOfDex(dex: Dex): string {
    if dex.name == "" then "metaAndAssetCtxs:native" else "metaAndAssetCtxs:" + dex.name
  }

  /** What a page makes of every source but the enumeration itself. */
  ghost predicate PageTaken(before: Source -> Held, after: Source -> Held, incoming: Catalog, page: Page, last: bool) {
    && (forall i :: 0 <= i < |page.dexes| ==>
          var k := Perp(page.dexes[i].index);
          Took(before(k), after(k), incoming, k, NameOfDex(page.dexes[i]), last))
    && (forall k :: k != PerpDexs && (forall i :: 0 <= i < |page.dexes| ==> k != Perp(page.dexes[i].index)) ==> after(k) == before(k))
  }

  /** The error of the enumeration is stored under its own source, or cleared. */
  ghost predicate EnumerationTaken(error: Option<SourceError>, incoming: Catalog, last: bool) {
    if Reported(incoming.errors, "perpDexs")
    then exists i: nat :: Picked(incoming.errors, "perpDexs", i, last) && error == Some(Sanitized(incoming.errors[i]))
    else error == None
  }

  /** Builder dexes come once each and after the native one. */
  predicate BuilderDexes(dexes: seq<Dex>) {
    && (forall i :: 0 <= i < |dexes| ==> dexes[i].index > 0)
    && (forall i, j :: 0 <= i < j < |dexes| ==> dexes[i].index != dexes[j].index)
  }

  /** The deliveries of a page. */
  function DexList(incoming: Catalog, dexes: seq<Dex>, last: bool): seq<Delivery> {
    seq(|dexes|, i requires 0 <= i < |dexes| =>
      Delivery(Perp(dexes[i].index), Find(incoming.errors, NameOfDex(dexes[i]), last), RecordsFor(incoming.records, Perp(dexes[i].index))))
  }

  lemma DexLists(incoming: Catalog, dexes: seq<Dex>)
    requires BuilderDexes(dexes)
    ensures DexDeliveries(incoming, dexes) == DexList(incoming, dexes, true)
    ensures DexPayloadDeliveries(incoming, dexes) == DexList(incoming, dexes, false)
  {
    assert "metaAndAssetCtxs:" + "native" == "metaAndAssetCtxs:native";
    forall i | 0 <= i < |dexes|
      ensures DexDeliveries(incoming, dexes)[i] == DexList(incoming, dexes, true)[i]
    {
      DexRecords(incoming.records, dexes[i].index);
    }
  }

  /** What happened to source `k` by a page: taken by its dex, or left alone. */
  ghost predicate DexStep(before: Held, after: Held, arrived: seq<Delivery>, k: Source) {
    && (forall i :: 0 <= i < |arrived| && arrived[i].source == k ==> after == Take(before, arrived[i]))
    && ((forall i :: 0 <= i < |arrived| ==> arrived[i].source != k) ==> after == before)
  }

  lemma PageListed(before: Source -> Held, after: Source -> Held, incoming: Catalog, page: Page, last: bool)
    requires forall k :: k != PerpDexs ==> DexStep(before(k), after(k), DexList(incoming, page.dexes, last), k)
    ensures PageTaken(before, after, incoming, page, last)
  {
    var arrived := DexList(incoming, page.dexes, last);
    forall i | 0 <= i < |page.dexes|
      ensures var k := Perp(page.dexes[i].index); Took(before(k), after(k), incoming, k, NameOfDex(page.dexes[i]), last)
    {
      var k := Perp(page.dexes[i].index);
      assert arrived[i].source == k;
      TakeTook(before(k), incoming, k, NameOfDex(page.dexes[i]), last);
    }
  }

  lemma EnumerationMeans(incoming: Catalog, last: bool)
    ensures var e := Find(incoming.errors, "perpDexs", last);
      EnumerationTaken(if e.Some? then Some(Sanitized(e.value)) else None, incoming, last)
  {
    LastPicked(incoming.errors, "perpDexs");
    FirstPicked(incoming.errors, "perpDexs");
  }

  lemma PgDexStep(d: PgData, incoming: Catalog, dexes: seq<Dex>, last: bool, k: Source)
    requires BuilderDexes(dexes)
    ensures DexStep(PgHeld(d, k), PgHeld(PgResolveAll(d, DexList(incoming, dexes, last)), k), DexList(incoming, dexes, last), k)
  {
    var arrived := DexList(incoming, dexes, last);
    forall i | 0 <= i < |arrived|
      ensures OwnRecords(arrived[i])
    {
      OwnDelivery(incoming, arrived[i].source, arrived[i].error);
    }
    PgResolveAllHeld(d, arrived, k);
  }

  /** Postgres. */
  lemma PgPageMeans(d: PgData, incoming: Catalog, page: Page)
    requires BuilderDexes(page.dexes)
    ensures PageTaken(k => PgHeld(d, k), k => PgHeld(PgPage(d, incoming, page), k), incoming, page, true)
    ensures EnumerationTaken(Get(PgPage(d, incoming, page).errors, PerpDexs), incoming, true)
  {
    DexLists(incoming, page.dexes);
    EnumerationMeans(incoming, true);
    var arrived := DexList(incoming, page.dexes, true);
    forall k | k != PerpDexs
      ensures DexStep(PgHeld(d, k), PgHeld(PgPage(d, incoming, page), k), arrived, k)
    {
      PgDexStep(d, incoming, page.dexes, true, k);
      assert PgHeld(PgPage(d, incoming, page), k) == PgHeld(PgResolveAll(d, arrived), k);
    }
    PageListed(k => PgHeld(d, k), k => PgHeld(PgPage(d, incoming, page), k), incoming, page, true);
  }

  /** The pure merge. */
  lemma PayloadPageMeans(p: Payload, incoming: Catalog, page: Page)
    requires BuilderDexes(page.dexes)
    ensures PageTaken(k => PayloadHeld(p, k), k => PayloadHeld(MergeBuilder(p, incoming, page), k), incoming, page, false)
    ensures EnumerationTaken(Get(MergeBuilder(p, incoming, page).errors, PerpDexs), incoming, false)
  {
    DexLists(incoming, page.dexes);
    EnumerationMeans(incoming, false);
    var d, arrived := PgData(PayloadRecords(p), p.errors), DexList(incoming, page.dexes, false);
    MergeAllSame(d, p, arrived);
    forall k | k != PerpDexs
      ensures DexStep(PayloadHeld(p, k), PayloadHeld(MergeBuilder(p, incoming, page), k), arrived, k)
    {
      PgDexStep(d, incoming, page.dexes, false, k);
      assert PayloadHeld(MergeBuilder(p, incoming, page), k) == PgHeld(PgResolveAll(d, arrived), k);
    }
    PageListed(k => PayloadHeld(p, k), k => PayloadHeld(MergeBuilder(p, incoming, page), k), incoming, page, false);
  }

  lemma D1DexStep(d: D1Data, published: Option<D1Data>, incoming: Catalog, page: Page, owner: RecordId -> Source, k: Source)
    requires D1Good(d, owner) && PublishedGood(published, owner) && GoodCatalog(incoming, owner) && BuilderDexes(page.dexes)
    requires k != PerpDexs
    ensures DexStep(D1Held(d, published, k), D1Held(D1Page(d, published, incoming, page), published, k), DexList(incoming, page.dexes, true), k)
  {
    DexLists(incoming, page.dexes);
    DexDeliveriesGood(incoming, page.dexes, owner);
    var arrived := DexList(incoming, page.dexes, true);
    D1ResolveAllHeld(d, published, arrived, owner, k);
    assert D1Records(D1Page(d, published, incoming, page)) == D1Records(D1ResolveAll(d, published, arrived));
  }

  /** D1. */
  lemma D1PageMeans(d: D1Data, published: Option<D1Data>, incoming: Catalog, page: Page, owner: RecordId -> Source)
    requires D1Good(d, owner) && PublishedGood(published, owner) && GoodCatalog(incoming, owner) && BuilderDexes(page.dexes)
    ensures PageTaken(k => D1Held(d, published, k), k => D1Held(D1Page(d, published, incoming, page), published, k), incoming, page, true)
    ensures EnumerationTaken(Get(D1Page(d, published, incoming, page).errors, PerpDexs), incoming, true)
  {
    EnumerationMeans(incoming, true);
    forall k | k != PerpDexs
      ensures DexStep(D1Held(d, published, k), D1Held(D1Page(d, published, incoming, page), published, k), DexList(incoming, page.dexes, true), k)
    {
      D1DexStep(d, published, incoming, page, owner, k);
    }
    PageListed(k => D1Held(d, published, k), k => D1Held(D1Page(d, published, incoming, page), published, k), incoming, page, true);
  }

  lemma D1PageFits(d: D1Data, published: Option<D1Data>, incoming: Catalog, page: Page)
    requires D1Fit(d, published, incoming) && BuilderDexes(page.dexes)
    ensures PageTaken(k => D1Held(d, published, k), k => D1Held(D1Page(d, published, incoming, page), published, k), incoming, page, true)
    ensures EnumerationTaken(Get(D1Page(d, published, incoming, page).errors, PerpDexs), incoming, true)
  {
    var owner: RecordId -> Source :| D1Good(d, owner) && PublishedGood(published, owner) && GoodCatalog(incoming, owner);
    D1PageMeans(d, published, incoming, page, owner);
  }

  /* ---- what a completed fetch decides ----------------------------------------------- */

  /** The core is ready after a fetch without core errors, or after the third failure. */
  lemma CoreDecides(s: Sync, l: Lease, incoming: Catalog, t: Time, next: Time)
    requires MayComplete(s, l, t)
    ensures var after := Next(s, DoCore(l, incoming, t, next));
      var failed := Reported(incoming.errors, "metaAndAssetCtxs:native") || Reported(incoming.errors, "spotMetaAndAssetCtxs") || Reported(incoming.errors, "outcomeMeta");
      && (after.coreReady <==> !failed || s.failures >= 2)
      && after.failures == (if after.coreReady then 0 else s.failures + 1)
      && after.published == s.published && after.building == s.building && after.offset == l.offset
      && after.owner.None? && after.nextAttempt == next
  {
    LastPicked(incoming.errors, "metaAndAssetCtxs:native");
    LastPicked(incoming.errors, "spotMetaAndAssetCtxs");
    LastPicked(incoming.errors, "outcomeMeta");
    assert CORE[0].1 == "metaAndAssetCtxs:native" && CORE[1].1 == "spotMetaAndAssetCtxs" && CORE[2].1 == "outcomeMeta";
  }

  /** Some fetch of the page failed. */
  predicate PageReported(incoming: Catalog, page: Page) {
    || Reported(incoming.errors, "perpDexs")
    || exists i :: 0 <= i < |page.dexes| && Reported(incoming.errors, NameOfDex(page.dexes[i]))
  }

  lemma PageFailedIs(incoming: Catalog, page: Page)
    ensures PageFailed(incoming, page) <==> PageReported(incoming, page)
  {
    LastPicked(incoming.errors, "perpDexs");
    assert "metaAndAssetCtxs:" + "native" == "metaAndAssetCtxs:native";
    forall i | 0 <= i < |page.dexes|
      ensures LastError(incoming.errors, DexErrorName(page.dexes[i])).Some? <==> Reported(incoming.errors, NameOfDex(page.dexes[i]))
    {
      LastPicked(incoming.errors, DexErrorName(page.dexes[i]));
    }
  }

  /** A page that failed less than three times is fetched again; otherwise the build goes on behind its dexes, and publishes when they reach the total. */
  lemma PageDecides(s: Sync, l: Lease, incoming: Catalog, t: Time, next: Time)
    requires PageAcceptable(l, incoming) && MayComplete(s, l, t)
    ensures var page, step := incoming.page.value, DoPage(l, incoming, t, next);
      var after, reached := Next(s, step), page.offset + |page.dexes|;
      && after.owner.None? && after.nextAttempt == next
      && if PageReported(incoming, page) && s.failures < 2
         then !Publishes(s, step) && after.offset == l.offset && after.failures == s.failures + 1 && after.coreReady
              && after.building == s.building && after.published == s.published
         else if reached < page.total
         then !Publishes(s, step) && after.offset == reached && after.failures == 0 && after.coreReady
              && after.building == s.building && after.published == s.published
         else Publishes(s, step) && after.published == Some(l.building) && after.building.None?
              && !after.coreReady && after.offset == 0 && after.failures == 0
  {
    PageFailedIs(incoming, incoming.page.value);
  }

  /** A claim keeps every other claim out for two minutes, unless its lease is released before. */
  lemma ClaimExcludes(s: Sync, owner: Owner, t: Time, u: Time)
    requires Due(s, t) && t <= u
    ensures Due(Claim(s, owner, t), u) <==> u >= t + 120_000
    ensures CatalogSync.Held(Claim(s, owner, t), LeaseOf(Claim(s, owner, t), owner))
  {
  }

  /** A claim is granted exactly once the next attempt is due and no lease is running; it takes a new lease and opens the next generation unless one is being built. */
  lemma ClaimsExactly(s: Sync, owner: Owner, t: Time)
    ensures var after := Next(s, DoClaim(owner, t));
      if s.nextAttempt <= t && (s.owner.None? || s.expiresAt <= t)
      then
        && after.owner == Some(owner) && after.leaseGeneration == s.leaseGeneration + 1 && after.expiresAt == t + 120_000
        && after.published == s.published && after.nextAttempt == s.nextAttempt
        && (if s.building.Some?
            then after.building == s.building && after.coreReady == s.coreReady && after.offset == s.offset && after.failures == s.failures
            else after.building == Some(if s.published.Some? then s.published.value + 1 else 1)
                 && !after.coreReady && after.offset == 0 && after.failures == 0)
      else after == s
  {
  }

  /** A failed fetch releases the lease until its next attempt and leaves the build where it was. */
  lemma FailureReleases(s: Sync, l: Lease, next: Time)
    ensures Next(s, DoFailure(l, next)) ==
      if s.owner == Some(l.owner) && s.leaseGeneration == l.leaseGeneration && s.building == Some(l.building)
      then s.(owner := None, expiresAt := 0, nextAttempt := next) else s
  {
  }

  /** Nothing is written under the lease of another owner, another claim or another build, nor under an expired one. */
  lemma ForeignLeaseWritesNothing(w: Tables, step: Step)
    requires step.DoCore? || step.DoPage?
    requires var s, l := w.issued.sync, step.lease;
      s.owner != Some(l.owner) || s.leaseGeneration != l.leaseGeneration || s.building != Some(l.building) || s.expiresAt <= step.t
    ensures TablesNext(w, step) == w
  {
  }

  /** A publication leaves only the generations from the one before it on. */
  lemma OldGenerationsGone(w: Tables, step: Step)
    requires Publishes(w.issued.sync, step)
    ensures var after := TablesNext(w, step);
      forall g :: g in after.pg || g in after.d1 || g in after.pure ==> g >= step.lease.building - 1
  {
  }
}
