/**
 The market catalog: what a source delivers, the pure payload merges, and how the
 Postgres and D1 stores fold the same deliveries into the generation being built.
 */
module Catalog {
  import opened Base

  type RecordId = nat

  /** source_key of the record and error tables. */
  datatype Source = Perp(index: nat) | Spot | Outcome | PerpDexs

  datatype Family = PerpMarket | SpotMarket | OutcomeMarket

  /** A market or a quarantined market; the fields no store looks at are one opaque body. */
  datatype Record = Record(id: RecordId, family: Family, dexIndex: Option<nat>, quarantined: bool, body: nat)

  datatype SourceError = SourceError(source: string, message: string, status: Option<int>, retryAfterMs: Option<int>)

  datatype Dex = Dex(index: nat, name: string)
  datatype Page = Page(offset: nat, total: nat, dexes: seq<Dex>)
  datatype Catalog = Catalog(records: seq<Record>, errors: seq<SourceError>, page: Option<Page>)

  const MAX_PAGE_FAILURES := 3

  function SourceOf(r: Record): Source {
    match r.family
    case PerpMarket => Perp(if r.dexIndex.Some? then r.dexIndex.value else 0)
    case SpotMarket => Spot
    case OutcomeMarket => Outcome
  }

  const CORE: seq<(Source, string)> :=
    [(Perp(0), "metaAndAssetCtxs:native"), (Spot, "spotMetaAndAssetCtxs"), (Outcome, "outcomeMeta")]

  function DexErrorName(dex: Dex): string {
    "metaAndAssetCtxs:" + if dex.name == "" then "native" else dex.name
  }

  const ENUMERATION := "perpDexs"

  function BoundedDelay(value: int): int {
    if value < 1_000 then 1_000 else if value > 86_400_000 then 86_400_000 else value
  }

  /** What every store keeps of an error. */
  function Sanitized(e: SourceError): SourceError {
    SourceError(
      if |e.source| > 256 then e.source[..256] else e.source,
      if e.message == "" then "catalog source failed" else if |e.message| > 1024 then e.message[..1024] else e.message,
      if e.status.Some? && 400 <= e.status.value <= 599 then e.status else None,
      if e.retryAfterMs.Some? then Some(BoundedDelay(e.retryAfterMs.value)) else None)
  }

  /** `sourceErrors.find`: the first error of a source. */
  function FirstError(errors: seq<SourceError>, name: string): Option<SourceError> {
    if errors == [] then None
    else if errors[0].source == name then Some(errors[0])
    else FirstError(errors[1..], name)
  }

  /** Lookup in `new Map(errors.map(...))`: the last error of a source. */
  function LastError(errors: seq<SourceError>, name: string): Option<SourceError> {
    if errors == [] then None
    else if errors[|errors| - 1].source == name then Some(errors[|errors| - 1])
    else LastError(errors[..|errors| - 1], name)
  }

  /** The records of one source, in delivery order. */
  function RecordsFor(records: seq<Record>, k: Source): seq<Record> {
    if records == [] then []
    else (if SourceOf(records[0]) == k then [records[0]] else []) + RecordsFor(records[1..], k)
  }

  /** recordsForBuilderDex compares the dex index itself. */
  function RecordsForDex(records: seq<Record>, index: nat): seq<Record> {
    if records == [] then []
    else
      (if records[0].family.PerpMarket? && records[0].dexIndex == Some(index) then [records[0]] else [])
      + RecordsForDex(records[1..], index)
  }

  /** What a completed fetch says about one source. */
  datatype Delivery = Delivery(source: Source, error: Option<SourceError>, records: seq<Record>)

  /** The three core sources as the two stores read them. */
  function CoreDeliveries(incoming: Catalog): seq<Delivery> {
    seq(|CORE|, i requires 0 <= i < |CORE| =>
      Delivery(CORE[i].0, LastError(incoming.errors, CORE[i].1), RecordsFor(incoming.records, CORE[i].0)))
  }

  /** The builder dexes of a page as the two stores read them. */
  function DexDeliveries(incoming: Catalog, dexes: seq<Dex>): seq<Delivery> {
    seq(|dexes|, i requires 0 <= i < |dexes| =>
      Delivery(Perp(dexes[i].index), LastError(incoming.errors, DexErrorName(dexes[i])),
               RecordsForDex(incoming.records, dexes[i].index)))
  }

  /** The same, as the payload merges read them. */
  function CorePayloadDeliveries(incoming: Catalog): seq<Delivery> {
    seq(|CORE|, i requires 0 <= i < |CORE| =>
      Delivery(CORE[i].0, FirstError(incoming.errors, CORE[i].1), RecordsFor(incoming.records, CORE[i].0)))
  }

  function DexPayloadDeliveries(incoming: Catalog, dexes: seq<Dex>): seq<Delivery> {
    seq(|dexes|, i requires 0 <= i < |dexes| =>
      Delivery(Perp(dexes[i].index), FirstError(incoming.errors, DexErrorName(dexes[i])),
               RecordsFor(incoming.records, Perp(dexes[i].index))))
  }

  function Elements(records: seq<Record>): set<Record> {
    set r | r in records
  }

  function Of(records: set<Record>, k: Source): set<Record> {
    set r | r in records && SourceOf(r) == k
  }

  type Errors = map<Source, SourceError>

  /* ---- the pure payload ------------------------------------------------ */

  datatype Payload = Payload(markets: seq<Record>, quarantined: seq<Record>, errors: Errors)

  const EMPTY_PAYLOAD := Payload([], [], map[])

  function Drop(records: seq<Record>, k: Source): seq<Record> {
    if records == [] then []
    else (if SourceOf(records[0]) != k then [records[0]] else []) + Drop(records[1..], k)
  }

  function Kind(records: seq<Record>, quarantined: bool): seq<Record> {
    if records == [] then []
    else (if records[0].quarantined == quarantined then [records[0]] else []) + Kind(records[1..], quarantined)
  }

  function WithSourceError(p: Payload, k: Source, e: Option<SourceError>): Payload {
    p.(errors := if e.Some? then p.errors[k := Sanitized(e.value)] else p.errors - {k})
  }

  function MergeSource(p: Payload, arrived: Delivery): Payload {
    if arrived.error.Some? then WithSourceError(p, arrived.source, arrived.error)
    else
      WithSourceError(
        p.(markets := Drop(p.markets, arrived.source) + Kind(arrived.records, false),
           quarantined := Drop(p.quarantined, arrived.source) + Kind(arrived.records, true)),
        arrived.source, None)
  }

  function MergeAll(p: Payload, arrived: seq<Delivery>): Payload
    decreases |arrived|
  {
    if arrived == [] then p else MergeAll(MergeSource(p, arrived[0]), arrived[1..])
  }

  function MergeCore(p: Payload, incoming: Catalog): Payload {
    MergeAll(p, CorePayloadDeliveries(incoming))
  }

  function MergeBuilder(p: Payload, incoming: Catalog, page: Page): Payload {
    WithSourceError(MergeAll(p, DexPayloadDeliveries(incoming, page.dexes)), PerpDexs, FirstError(incoming.errors, ENUMERATION))
  }

  predicate Keeps(r: Record, total: nat) {
    !r.family.PerpMarket? || r.dexIndex.None? || r.dexIndex.value <= total
  }

  function KeepRecords(records: seq<Record>, total: nat): seq<Record> {
    if records == [] then []
    else (if Keeps(records[0], total) then [records[0]] else []) + KeepRecords(records[1..], total)
  }

  function KeepErrors(errors: Errors, total: nat): Errors {
    map k | k in errors && (k.Perp? ==> k.index <= total) :: errors[k]
  }

  function Prune(p: Payload, total: nat): Payload {
    Payload(KeepRecords(p.markets, total), KeepRecords(p.quarantined, total), KeepErrors(p.errors, total))
  }

  /** max(0, ...indexes). */
  ghost function Max(indexes: set<nat>): (m: nat)
    ensures m == 0 || m in indexes
    ensures forall i :: i in indexes ==> i <= m
  {
    if indexes == {} then 0
    else
      var i :| i in indexes;
      var rest := Max(indexes - {i});
      assert indexes == (indexes - {i}) + {i};
      if i > rest then i else rest
  }

  function ErrorIndexes(errors: Errors): set<nat> {
    set k | k in errors && k.Perp? :: k.index
  }

  function DexIndexes(records: set<Record>): set<nat> {
    set r | r in records && r.dexIndex.Some? && r.dexIndex.value > 0 :: r.dexIndex.value
  }

  /** retainedBuilderTotal of the payload looks at perpetuals, that of Postgres at the dex_index column. */
  ghost function PayloadTotal(p: Payload): nat {
    Max(DexIndexes(set r | r in PayloadRecords(p) && r.family.PerpMarket?) + ErrorIndexes(p.errors))
  }

  ghost function PgTotal(d: PgData): nat {
    Max(DexIndexes(d.records) + ErrorIndexes(d.errors))
  }

  function PayloadRecords(p: Payload): set<Record> {
    Elements(p.markets) + Elements(p.quarantined)
  }

  /* ---- Postgres: the building generation starts as a copy --------------- */

  datatype PgData = PgData(records: set<Record>, errors: Errors)

  const PG_EMPTY := PgData({}, map[])

  function PgReplace(d: PgData, k: Source, arrived: seq<Record>): PgData {
    PgData((set r | r in d.records && SourceOf(r) != k) + Elements(arrived), d.errors - {k})
  }

  function PgError(d: PgData, k: Source, e: SourceError): PgData {
    d.(errors := d.errors[k := Sanitized(e)])
  }

  function PgResolve(d: PgData, arrived: Delivery): PgData {
    if arrived.error.Some? then PgError(d, arrived.source, arrived.error.value)
    else PgReplace(d, arrived.source, arrived.records)
  }

  function PgResolveAll(d: PgData, arrived: seq<Delivery>): PgData
    decreases |arrived|
  {
    if arrived == [] then d else PgResolveAll(PgResolve(d, arrived[0]), arrived[1..])
  }

  function PgCore(d: PgData, incoming: Catalog): PgData {
    PgResolveAll(d, CoreDeliveries(incoming))
  }

  function PgPage(d: PgData, incoming: Catalog, page: Page): PgData {
    var merged := PgResolveAll(d, DexDeliveries(incoming, page.dexes));
    var e := LastError(incoming.errors, ENUMERATION);
    if e.Some? then PgError(merged, PerpDexs, e.value) else merged.(errors := merged.errors - {PerpDexs})
  }

  function PgPrune(d: PgData, total: nat): PgData {
    PgData((set r | r in d.records && (r.dexIndex.Some? ==> r.dexIndex.value <= total)), KeepErrors(d.errors, total))
  }

  /* ---- D1: the building generation starts empty ------------------------- */

  /** Rows are keyed by canonical id; `sources` lists the resolved sources. */
  datatype D1Data = D1Data(records: map<RecordId, Record>, errors: Errors, sources: set<Source>)

  const D1_EMPTY := D1Data(map[], map[], {})

  /** INSERT ... ON CONFLICT (canonical_id) DO UPDATE, batch after batch. */
  function Upsert(rows: map<RecordId, Record>, arrived: seq<Record>): map<RecordId, Record>
    decreases |arrived|
  {
    if arrived == [] then rows
    else Upsert(rows[arrived[0].id := arrived[0]], arrived[1..])
  }

  function Ids(records: seq<Record>): set<RecordId> {
    set r | r in records :: r.id
  }

  function D1Synchronize(d: D1Data, k: Source, arrived: seq<Record>): D1Data {
    var rows := Upsert(d.records, arrived);
    D1Data(
      map id | id in rows && !(SourceOf(rows[id]) == k && id !in Ids(arrived)) :: rows[id],
      d.errors - {k},
      d.sources + {k})
  }

  /** Falls back to the published rows of a source this build has not resolved yet. */
  function D1Retain(d: D1Data, published: Option<D1Data>, k: Source): D1Data {
    D1Data(
      if published.Some? && k !in d.sources
      then (map id | id in published.value.records && SourceOf(published.value.records[id]) == k :: published.value.records[id]) + d.records
      else d.records,
      d.errors,
      d.sources + {k})
  }

  function D1Error(d: D1Data, k: Source, e: SourceError): D1Data {
    d.(errors := d.errors[k := Sanitized(e)])
  }

  function D1Resolve(d: D1Data, published: Option<D1Data>, arrived: Delivery): D1Data {
    if arrived.error.Some? then D1Error(D1Retain(d, published, arrived.source), arrived.source, arrived.error.value)
    else D1Synchronize(d, arrived.source, arrived.records)
  }

  function D1ResolveAll(d: D1Data, published: Option<D1Data>, arrived: seq<Delivery>): D1Data
    decreases |arrived|
  {
    if arrived == [] then d else D1ResolveAll(D1Resolve(d, published, arrived[0]), published, arrived[1..])
  }

  function D1Core(d: D1Data, published: Option<D1Data>, incoming: Catalog): D1Data {
    D1ResolveAll(d, published, CoreDeliveries(incoming))
  }

  function D1Page(d: D1Data, published: Option<D1Data>, incoming: Catalog, page: Page): D1Data {
    var merged := D1ResolveAll(d, published, DexDeliveries(incoming, page.dexes));
    var e := LastError(incoming.errors, ENUMERATION);
    if e.Some? then D1Error(merged, PerpDexs, e.value) else merged.(errors := merged.errors - {PerpDexs})
  }

  predicate BuilderSource(k: Source) {
    k.Perp? && k.index > 0
  }

  /** retainMissingBuilderStatements: published builder sources this build never resolved. */
  function D1RetainMissing(d: D1Data, published: Option<D1Data>): D1Data {
    if published.None? then d
    else
      var p := published.value;
      var missing := set k | k in p.sources && BuilderSource(k) && k !in d.sources;
      D1Data(
        (map id | id in p.records && SourceOf(p.records[id]) in missing :: p.records[id]) + d.records,
        (map k | k in p.errors && k in missing :: p.errors[k]) + d.errors,
        d.sources + missing)
  }

  function D1Records(d: D1Data): set<Record> {
    set id | id in d.records :: d.records[id]
  }
}
