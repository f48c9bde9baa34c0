/**
 The catalog stores as objects whose methods change rows in loops, each proved
 against the transition functions.
 */
module CatalogStoreClasses {
  import opened Base
  import opened Catalog
  import opened CatalogSync
  import opened CatalogRefinement
  import opened CatalogStores
  import opened CatalogMeaning

  /** SELECT coalesce(max(...), 0). */
  method MaxIndex(indexes: set<nat>) returns (m: nat)
    ensures m == Max(indexes)
  {
    m := 0;
    var rest := indexes;
    while rest != {}
      invariant rest <= indexes
      invariant m == 0 || m in indexes
      invariant forall i :: i in indexes ==> i in rest || i <= m
      decreases |rest|
    {
      var i :| i in rest;
      if i > m { m := i; }
      rest := rest - {i};
    }
  }

  /** mergeCoreCatalog: one pass over the core sources. */
  method MergeCoreLoop(p: Payload, incoming: Catalog) returns (merged: Payload)
    ensures CoreTaken(k => PayloadHeld(p, k), k => PayloadHeld(merged, k), incoming, false)
    ensures merged == MergeCore(p, incoming)
  {
    PayloadCoreMeans(p, incoming);
    merged := p;
    var arrived := CorePayloadDeliveries(incoming);
    for i := 0 to |CORE|
      invariant MergeAll(merged, arrived[i..]) == MergeCore(p, incoming)
    {
      merged := MergeSource(merged,
        Delivery(CORE[i].0, FirstError(incoming.errors, CORE[i].1), RecordsFor(incoming.records, CORE[i].0)));
      assert arrived[i..][1..] == arrived[i + 1..];
    }
  }

  /** mergeBuilderCatalog: one pass over the dexes of the page, then the enumeration error. */
  method MergeBuilderLoop(p: Payload, incoming: Catalog, page: Page) returns (merged: Payload)
    ensures BuilderDexes(page.dexes) ==>
      PageTaken(k => PayloadHeld(p, k), k => PayloadHeld(merged, k), incoming, page, false)
      && EnumerationTaken(Get(merged.errors, PerpDexs), incoming, false)
    ensures merged == MergeBuilder(p, incoming, page)
  {
    if BuilderDexes(page.dexes) { PayloadPageMeans(p, incoming, page); }
    merged := p;
    ghost var arrived := DexPayloadDeliveries(incoming, page.dexes);
    for i := 0 to |page.dexes|
      invariant MergeAll(merged, arrived[i..]) == MergeAll(p, arrived)
    {
      var k := Perp(page.dexes[i].index);
      merged := MergeSource(merged,
        Delivery(k, FirstError(incoming.errors, DexErrorName(page.dexes[i])), RecordsFor(incoming.records, k)));
      assert arrived[i..][1..] == arrived[i + 1..];
    }
    merged := WithSourceError(merged, PerpDexs, FirstError(incoming.errors, ENUMERATION));
  }

  class PostgresCatalog {
    var sync: Sync
    var rows: map<nat, PgData>

    constructor ()
      ensures sync == INITIAL && rows == map[]
    {
      sync, rows := INITIAL, map[];
    }

    method ClaimDueSync(owner: Owner, t: Time) returns (lease: Option<Lease>)
      modifies this
      ensures sync == Next(old(sync), DoClaim(owner, t)) && rows == PgNext(old(rows), old(sync), DoClaim(owner, t))
      ensures lease == if Due(old(sync), t) then Some(LeaseOf(sync, owner)) else None
    {
      if !Due(sync, t) {
        return None;
      }
      if sync.building.None? {
        rows := rows[NextGeneration(sync) := PgPublished(rows, sync.published)];
      }
      sync := Claim(sync, owner, t);
      return Some(LeaseOf(sync, owner));
    }

    method CompleteCore(lease: Lease, incoming: Catalog, t: Time, nextAttempt: Time) returns (ok: bool)
      modifies this
      ensures ok == MayComplete(old(sync), lease, t)
      ensures sync == Next(old(sync), DoCore(lease, incoming, t, nextAttempt))
      ensures rows == PgNext(old(rows), old(sync), DoCore(lease, incoming, t, nextAttempt))
      ensures ok ==>
        var before, after := PgAt(old(rows), lease.building), PgAt(rows, lease.building);
        CoreTaken(k => PgHeld(before, k), k => PgHeld(after, k), incoming, true)
    {
      if !MayComplete(sync, lease, t) {
        return false;
      }
      PgCoreMeans(PgAt(rows, lease.building), incoming);
      var d := PgAt(rows, lease.building);
      ghost var arrived := CoreDeliveries(incoming);
      for i := 0 to |CORE|
        invariant PgResolveAll(d, arrived[i..]) == PgCore(PgAt(rows, lease.building), incoming)
      {
        var error := LastError(incoming.errors, CORE[i].1);
        d := if error.Some? then PgError(d, CORE[i].0, error.value)
             else PgReplace(d, CORE[i].0, RecordsFor(incoming.records, CORE[i].0));
        assert arrived[i..][1..] == arrived[i + 1..];
      }
      rows := rows[lease.building := d];
      sync := AfterCore(sync, lease, incoming, nextAttempt);
      return true;
    }

    method CompleteBuilderPage(lease: Lease, incoming: Catalog, t: Time, nextAttempt: Time) returns (r: Result<bool>)
      modifies this
      ensures sync == Next(old(sync), DoPage(lease, incoming, t, nextAttempt))
      ensures rows == PgNext(old(rows), old(sync), DoPage(lease, incoming, t, nextAttempt))
      ensures r.Ok? <==> Enabled(old(sync), DoPage(lease, incoming, t, nextAttempt))
      ensures r.Ok? ==> r.value == Publishes(old(sync), DoPage(lease, incoming, t, nextAttempt))
    {
      if incoming.page.None? || incoming.page.value.offset != lease.offset {
        return Err("market catalog builder page does not match sync state");
      }
      var page := incoming.page.value;
      if page.total > page.offset && page.dexes == [] {
        return Err("market catalog builder page made no progress");
      }
      if !MayComplete(sync, lease, t) {
        return Err("market catalog sync lease was lost");
      }
      var d := MergedPage(lease, incoming, page);
      var verdict := Judge(sync, incoming, page);
      if verdict.Publish? {
        var total := page.total;
        if LastError(incoming.errors, ENUMERATION).Some? && lease.published.Some? {
          total := MaxIndex(DexIndexes(d.records) + ErrorIndexes(d.errors));
        }
        rows := From(rows[lease.building := PgPrune(d, total)], lease.building - 1);
      } else {
        rows := rows[lease.building := d];
      }
      sync := AfterPage(sync, lease, incoming, page, nextAttempt);
      return Ok(verdict.Publish?);
    }

    /** The loop over the dexes of a page. */
    method MergedPage(lease: Lease, incoming: Catalog, page: Page) returns (d: PgData)
      ensures BuilderDexes(page.dexes) ==>
        var before := PgAt(rows, lease.building);
        PageTaken(k => PgHeld(before, k), k => PgHeld(d, k), incoming, page, true)
        && EnumerationTaken(Get(d.errors, PerpDexs), incoming, true)
      ensures d == PgPage(PgAt(rows, lease.building), incoming, page)
    {
      if BuilderDexes(page.dexes) { PgPageMeans(PgAt(rows, lease.building), incoming, page); }
      d := PgAt(rows, lease.building);
      ghost var arrived := DexDeliveries(incoming, page.dexes);
      for i := 0 to |page.dexes|
        invariant PgResolveAll(d, arrived[i..]) == PgResolveAll(PgAt(rows, lease.building), arrived)
      {
        var dex := page.dexes[i];
        var error := LastError(incoming.errors, DexErrorName(dex));
        d := if error.Some? then PgError(d, Perp(dex.index), error.value)
             else PgReplace(d, Perp(dex.index), RecordsForDex(incoming.records, dex.index));
        assert arrived[i..][1..] == arrived[i + 1..];
      }
      var e := LastError(incoming.errors, ENUMERATION);
      d := if e.Some? then PgError(d, PerpDexs, e.value) else d.(errors := d.errors - {PerpDexs});
    }
  }

  /** The statements D1 pushes for the core sources. */
  method MergedCore(before: D1Data, published: Option<D1Data>, incoming: Catalog) returns (d: D1Data)
    ensures d == D1Core(before, published, incoming)
  {
    d := before;
    ghost var arrived := CoreDeliveries(incoming);
    for i := 0 to |CORE|
      invariant D1ResolveAll(d, published, arrived[i..]) == D1Core(before, published, incoming)
    {
      var k, error := CORE[i].0, LastError(incoming.errors, CORE[i].1);
      if error.Some? {
        d := D1Retain(d, published, k);
        d := D1Error(d, k, error.value);
      } else {
        d := D1Synchronize(d, k, RecordsFor(incoming.records, k));
      }
      assert arrived[i..][1..] == arrived[i + 1..];
    }
  }

  class D1Catalog {
    var sync: Sync
    var rows: map<nat, D1Data>

    constructor ()
      ensures sync == INITIAL && rows == map[]
    {
      sync, rows := INITIAL, map[];
    }

    method CompleteCore(lease: Lease, incoming: Catalog, t: Time, nextAttempt: Time) returns (ok: bool)
      modifies this
      ensures ok == MayComplete(old(sync), lease, t)
      ensures sync == Next(old(sync), DoCore(lease, incoming, t, nextAttempt))
      ensures rows == D1Next(old(rows), old(sync), DoCore(lease, incoming, t, nextAttempt))
      ensures ok ==>
        var published, before, after := D1Published(old(rows), lease.published), D1At(old(rows), lease.building), D1At(rows, lease.building);
        D1Fit(before, published, incoming) ==>
          CoreTaken(k => D1Held(before, published, k), k => D1Held(after, published, k), incoming, true)
    {
      if !MayComplete(sync, lease, t) {
        return false;
      }
      var published := D1Published(rows, lease.published);
      if D1Fit(D1At(rows, lease.building), published, incoming) { D1CoreFits(D1At(rows, lease.building), published, incoming); }
      var d := MergedCore(D1At(rows, lease.building), published, incoming);
      rows := rows[lease.building := d];
      sync := AfterCore(sync, lease, incoming, nextAttempt);
      return true;
    }

    method CompleteBuilderPage(lease: Lease, incoming: Catalog, t: Time, nextAttempt: Time) returns (r: Result<bool>)
      modifies this
      ensures sync == Next(old(sync), DoPage(lease, incoming, t, nextAttempt))
      ensures rows == D1Next(old(rows), old(sync), DoPage(lease, incoming, t, nextAttempt))
      ensures r.Ok? <==> Enabled(old(sync), DoPage(lease, incoming, t, nextAttempt))
      ensures r.Ok? ==> r.value == Publishes(old(sync), DoPage(lease, incoming, t, nextAttempt))
    {
      if incoming.page.None? || incoming.page.value.offset != lease.offset {
        return Err("market catalog builder page does not match sync state");
      }
      var page := incoming.page.value;
      if page.total > page.offset && page.dexes == [] {
        return Err("market catalog builder page made no progress");
      }
      if !MayComplete(sync, lease, t) {
        return Err("market catalog sync lease was lost");
      }
      var d := MergedPage(lease, incoming, page);
      var verdict := Judge(sync, incoming, page);
      if verdict.Publish? {
        if LastError(incoming.errors, ENUMERATION).Some? {
          d := D1RetainMissing(d, D1Published(rows, lease.published));
        }
        rows := From(rows[lease.building := d], lease.building - 1);
      } else {
        rows := rows[lease.building := d];
      }
      sync := AfterPage(sync, lease, incoming, page, nextAttempt);
      return Ok(verdict.Publish?);
    }

    method MergedPage(lease: Lease, incoming: Catalog, page: Page) returns (d: D1Data)
      ensures
        var before, published := D1At(rows, lease.building), D1Published(rows, lease.published);
        BuilderDexes(page.dexes) && D1Fit(before, published, incoming) ==>
          PageTaken(k => D1Held(before, published, k), k => D1Held(d, published, k), incoming, page, true)
          && EnumerationTaken(Get(d.errors, PerpDexs), incoming, true)
      ensures d == D1Page(D1At(rows, lease.building), D1Published(rows, lease.published), incoming, page)
    {
      var published := D1Published(rows, lease.published);
      if BuilderDexes(page.dexes) && D1Fit(D1At(rows, lease.building), published, incoming) {
        D1PageFits(D1At(rows, lease.building), published, incoming, page);
      }
      d := D1At(rows, lease.building);
      ghost var arrived := DexDeliveries(incoming, page.dexes);
      for i := 0 to |page.dexes|
        invariant D1ResolveAll(d, published, arrived[i..]) == D1ResolveAll(D1At(rows, lease.building), published, arrived)
      {
        var dex := page.dexes[i];
        var k, error := Perp(dex.index), LastError(incoming.errors, DexErrorName(dex));
        if error.Some? {
          d := D1Retain(d, published, k);
          d := D1Error(d, k, error.value);
        } else {
          d := D1Synchronize(d, k, RecordsForDex(incoming.records, dex.index));
        }
        assert arrived[i..][1..] == arrived[i + 1..];
      }
      var e := LastError(incoming.errors, ENUMERATION);
      d := if e.Some? then D1Error(d, PerpDexs, e.value) else d.(errors := d.errors - {PerpDexs});
    }
  }
}
