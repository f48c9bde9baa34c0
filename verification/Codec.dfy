/** Trading intents, their wire actions, and the bytes whose hash is signed. */
module Codec {
  import opened Base
  import Decimals

  const MAX_BULK_CANCELS := 100
  const ACTION_EXPIRY_MS := 15_000

  /** The property names of the wire format; `Foreign` is any other. */
  datatype Key =
    | KType | KOrders | KGrouping | KOid | KOrder | KCancels | KAsset | KCloid | KIsCross | KLeverage
    | KA | KB | KP | KS | KR | KT | KC | KO | KLimit | KTif | KTrigger | KIsMarket | KTriggerPx | KTpsl
    | Foreign(name: string)

  /** A JavaScript value; records keep the insertion order of their properties. `Alien` is everything else. */
  datatype Js = Bool(b: bool) | Num(n: int) | Str(s: string) | List(items: Items) | Record(fields: Fields) | Alien
  datatype Items = NoItems | Item(head: Js, tail: Items)
  datatype Fields = NoFields | Field(key: Key, value: Js, rest: Fields)

  /* ---- shared validation ------------------------------------------------------ */

  predicate Safe(n: int) { 0 <= n <= MAX_SAFE }

  /** ZERO_DECIMAL_PATTERN. */
  predicate ZeroText(s: string) {
    s != [] && s[0] == '0' && (|s| == 1 || (s[1] == '.' && forall i :: 2 <= i < |s| ==> s[i] == '0'))
  }

  predicate PositiveText(s: string) {
    Decimals.Canonical(s) && !ZeroText(s)
  }

  predicate HexChar(c: char) {
    '0' <= c <= '9' || 'a' <= c <= 'f' || 'A' <= c <= 'F'
  }

  /** `0x` and `n` hexadecimal digits. */
  predicate HexText(s: string, n: nat) {
    |s| == n + 2 && s[0] == '0' && s[1] == 'x' && forall i :: 2 <= i < |s| ==> HexChar(s[i])
  }

  predicate CloidText(s: string) { HexText(s, 32) }

  function LowerChar(c: char): char {
    if 'A' <= c <= 'Z' then (c as int + 32) as char else c
  }

  function Lower(s: string): string {
    seq(|s|, i requires 0 <= i < |s| => LowerChar(s[i]))
  }

  /* ---- builders ------------------------------------------------------------------ */

  datatype Target = OidTarget(oid: int) | CloidTarget(cloid: string)
  datatype CancelOf = CancelOf(assetId: int, target: Target)

  datatype Intent =
    | MarketOrder(assetId: int, side: string, size: string, price: string, cloid: string)
    | LimitOrder(assetId: int, side: string, size: string, price: string, tif: string, reduceOnly: Js, cloid: string)
    | ReduceOnlyClose(assetId: int, side: string, size: string, price: string, cloid: string)
    | PositionTpsl(assetId: int, side: string, size: string, triggerPrice: string, price: string, triggerKind: string,
                   existingOid: Option<int>, cloid: string)
    | Cancel(one: CancelOf)
    | BulkCancel(cancels: seq<CancelOf>)
    | UpdateLeverage(assetId: int, marginMode: string, leverage: int)

  predicate SideText(s: string) { s == "buy" || s == "sell" }
  predicate TifText(s: string) { s == "Alo" || s == "Gtc" || s == "Ioc" }

  function OrderFields(a: int, b: bool, p: string, s: string, r: bool, t: Js, c: string): Js {
    Record(Field(KA, Num(a), Field(KB, Bool(b), Field(KP, Str(p), Field(KS, Str(s),
      Field(KR, Bool(r), Field(KT, t, Field(KC, Str(c), NoFields))))))))
  }

  function LimitType(tif: string): Js {
    Record(Field(KLimit, Record(Field(KTif, Str(tif), NoFields)), NoFields))
  }

  function TriggerType(px: string, tpsl: string): Js {
    Record(Field(KTrigger, Record(Field(KIsMarket, Bool(true), Field(KTriggerPx, Str(px), Field(KTpsl, Str(tpsl), NoFields)))), NoFields))
  }

  /** orderWire; None when it throws. */
  function OrderWire(assetId: int, side: string, price: string, size: string, reduceOnly: Js, tif: string, cloid: string): Option<Js> {
    if SideText(side) && TifText(tif) && reduceOnly.Bool? && Safe(assetId) && PositiveText(price) && PositiveText(size) && CloidText(cloid)
    then Some(OrderFields(assetId, side == "buy", price, size, reduceOnly.b, LimitType(tif), Lower(cloid)))
    else None
  }

  function TriggerWire(assetId: int, side: string, size: string, triggerPrice: string, price: string, kind: string, cloid: string): Option<Js> {
    if && SideText(side) && (kind == "take_profit" || kind == "stop_loss") && PositiveText(size)
       && Safe(assetId) && PositiveText(price) && PositiveText(triggerPrice) && CloidText(cloid)
    then Some(OrderFields(assetId, side == "buy", price, "0", true,
                          TriggerType(triggerPrice, if kind == "take_profit" then "tp" else "sl"), Lower(cloid)))
    else None
  }

  function OrderAction(order: Js, grouping: string): Js {
    Record(Field(KType, Str("order"), Field(KOrders, List(Item(order, NoItems)), Field(KGrouping, Str(grouping), NoFields))))
  }

  function ModifyAction(oid: int, order: Js): Js {
    Record(Field(KType, Str("modify"), Field(KOid, Num(oid), Field(KOrder, order, NoFields))))
  }

  function CancelAction(kind: string, cancels: Items): Js {
    Record(Field(KType, Str(kind), Field(KCancels, List(cancels), NoFields)))
  }

  function OidCancel(a: int, o: int): Js {
    Record(Field(KA, Num(a), Field(KO, Num(o), NoFields)))
  }

  function CloidCancel(a: int, c: string): Js {
    Record(Field(KAsset, Num(a), Field(KCloid, Str(c), NoFields)))
  }

  /** The wire form of one cancellation of the given kind. */
  function CancelWire(c: CancelOf, byOid: bool): Option<Js> {
    if byOid then
      if c.target.OidTarget? && Safe(c.assetId) && Safe(c.target.oid) then Some(OidCancel(c.assetId, c.target.oid)) else None
    else
      if c.target.CloidTarget? && Safe(c.assetId) && CloidText(c.target.cloid)
      then Some(CloidCancel(c.assetId, Lower(c.target.cloid))) else None
  }

  function CancelWires(cancels: seq<CancelOf>, byOid: bool): Option<Items> {
    if cancels == [] then Some(NoItems)
    else
      var head := CancelWire(cancels[0], byOid);
      var tail := CancelWires(cancels[1..], byOid);
      if head.Some? && tail.Some? then Some(Item(head.value, tail.value)) else None
  }

  function BuildCancels(cancels: seq<CancelOf>): Option<Js> {
    if !(1 <= |cancels| <= MAX_BULK_CANCELS) then None
    else
      var byOid := cancels[0].target.OidTarget?;
      var wires := CancelWires(cancels, byOid);
      if wires.None? then None else Some(CancelAction(if byOid then "cancel" else "cancelByCloid", wires.value))
  }

  /** buildExchangeAction; a single cancellation is the bulk of one. */
  function Build(intent: Intent): Option<Js> {
    match intent
    case MarketOrder(a, side, size, price, cloid) => Single(OrderWire(a, side, price, size, Bool(false), "Ioc", cloid), "na")
    case LimitOrder(a, side, size, price, tif, reduceOnly, cloid) => Single(OrderWire(a, side, price, size, reduceOnly, tif, cloid), "na")
    case ReduceOnlyClose(a, side, size, price, cloid) => Single(OrderWire(a, side, price, size, Bool(true), "Ioc", cloid), "na")
    case PositionTpsl(a, side, size, trigger, price, kind, existing, cloid) =>
      var wire := TriggerWire(a, side, size, trigger, price, kind, cloid);
      if existing.None? then Single(wire, "positionTpsl")
      else if wire.None? || !Safe(existing.value) then None
      else Some(ModifyAction(existing.value, wire.value))
    case Cancel(one) => BuildCancels([one])
    case BulkCancel(cancels) => BuildCancels(cancels)
    case UpdateLeverage(a, mode, leverage) =>
      if (mode == "cross" || mode == "isolated") && 1 <= leverage <= 100 && Safe(a)
      then Some(LeverageAction(a, mode == "cross", leverage)) else None
  }

  function Single(order: Option<Js>, grouping: string): Option<Js> {
    if order.Some? then Some(OrderAction(order.value, grouping)) else None
  }

  function LeverageAction(a: int, cross: bool, leverage: int): Js {
    Record(Field(KType, Str("updateLeverage"), Field(KAsset, Num(a), Field(KIsCross, Bool(cross), Field(KLeverage, Num(leverage), NoFields)))))
  }

  /* ---- canonicalizeExchangeAction ---------------------------------------------------- */

  function Get(fields: Fields, key: Key): Js {
    if fields.NoFields? then Alien else if fields.key == key then fields.value else Get(fields.rest, key)
  }

  predicate Has(fields: Fields, key: Key) {
    fields.Field? && (fields.key == key || Has(fields.rest, key))
  }

  function Count(fields: Fields): nat {
    if fields.NoFields? then 0 else 1 + Count(fields.rest)
  }

  /** objectAt and assertExactKeys: as many keys as expected, and each of those expected. */
  predicate Only1(v: Js, k: Key) { v.Record? && Count(v.fields) == 1 && Has(v.fields, k) }
  predicate Only2(v: Js, k: Key, l: Key) { v.Record? && Count(v.fields) == 2 && Has(v.fields, k) && Has(v.fields, l) }
  predicate Only3(v: Js, k: Key, l: Key, m: Key) {
    v.Record? && Count(v.fields) == 3 && Has(v.fields, k) && Has(v.fields, l) && Has(v.fields, m)
  }
  predicate Only4(v: Js, k: Key, l: Key, m: Key, n: Key) {
    v.Record? && Count(v.fields) == 4 && Has(v.fields, k) && Has(v.fields, l) && Has(v.fields, m) && Has(v.fields, n)
  }
  predicate OrderKeys(v: Js) {
    && v.Record? && Count(v.fields) == 7
    && Has(v.fields, KA) && Has(v.fields, KB) && Has(v.fields, KP) && Has(v.fields, KS)
    && Has(v.fields, KR) && Has(v.fields, KT) && Has(v.fields, KC)
  }

  predicate AssetId(v: Js) { v.Num? && Safe(v.n) }

  predicate PositiveJs(v: Js) { v.Str? && PositiveText(v.s) }
  predicate CloidJs(v: Js) { v.Str? && CloidText(v.s) }

  /** What limit and trigger orders have in common. */
  predicate CommonOrder(v: Js) {
    && OrderKeys(v)
    && Get(v.fields, KB).Bool? && Get(v.fields, KR).Bool? && PositiveJs(Get(v.fields, KP))
    && Get(v.fields, KS).Str? && Decimals.Canonical(Get(v.fields, KS).s)
    && AssetId(Get(v.fields, KA)) && CloidJs(Get(v.fields, KC))
  }

  function CanonicalLimit(v: Js): Option<Js> {
    if !CommonOrder(v) || ZeroText(Get(v.fields, KS).s) || !Only1(Get(v.fields, KT), KLimit) then None
    else
      var limit := Get(Get(v.fields, KT).fields, KLimit);
      if !Only1(limit, KTif) || !Get(limit.fields, KTif).Str? || !TifText(Get(limit.fields, KTif).s) then None
      else Some(OrderFields(Get(v.fields, KA).n, Get(v.fields, KB).b, Get(v.fields, KP).s, Get(v.fields, KS).s,
                            Get(v.fields, KR).b, LimitType(Get(limit.fields, KTif).s), Lower(Get(v.fields, KC).s)))
  }

  predicate TpslText(v: Js) { v.Str? && (v.s == "tp" || v.s == "sl") }

  function CanonicalTrigger(v: Js): Option<Js> {
    if !CommonOrder(v) || !ZeroText(Get(v.fields, KS).s) || !Only1(Get(v.fields, KT), KTrigger) then None
    else
      var trigger := Get(Get(v.fields, KT).fields, KTrigger);
      if || !Only3(trigger, KIsMarket, KTriggerPx, KTpsl) || Get(v.fields, KR) != Bool(true) || Get(trigger.fields, KIsMarket) != Bool(true)
         || !TpslText(Get(trigger.fields, KTpsl)) || !PositiveJs(Get(trigger.fields, KTriggerPx))
      then None
      else Some(OrderFields(Get(v.fields, KA).n, Get(v.fields, KB).b, Get(v.fields, KP).s, Get(v.fields, KS).s, true,
                            TriggerType(Get(trigger.fields, KTriggerPx).s, Get(trigger.fields, KTpsl).s), Lower(Get(v.fields, KC).s)))
  }

  function Length(items: Items): nat {
    if items.NoItems? then 0 else 1 + Length(items.tail)
  }

  function CanonicalCancel(v: Js, byOid: bool): Option<Js> {
    if byOid then
      if Only2(v, KA, KO) && AssetId(Get(v.fields, KO)) && AssetId(Get(v.fields, KA))
      then Some(OidCancel(Get(v.fields, KA).n, Get(v.fields, KO).n)) else None
    else
      if Only2(v, KAsset, KCloid) && AssetId(Get(v.fields, KAsset)) && CloidJs(Get(v.fields, KCloid))
      then Some(CloidCancel(Get(v.fields, KAsset).n, Lower(Get(v.fields, KCloid).s))) else None
  }

  function CanonicalCancels(items: Items, byOid: bool): Option<Items> {
    if items.NoItems? then Some(NoItems)
    else
      var head := CanonicalCancel(items.head, byOid);
      var tail := CanonicalCancels(items.tail, byOid);
      if head.Some? && tail.Some? then Some(Item(head.value, tail.value)) else None
  }

  function CanonicalOrderAction(f: Fields): Option<Js> {
    var orders, grouping := Get(f, KOrders), Get(f, KGrouping);
    if || !Only3(Record(f), KType, KOrders, KGrouping)
       || !grouping.Str? || (grouping.s != "na" && grouping.s != "positionTpsl")
       || !orders.List? || Length(orders.items) != 1
    then None
    else Single(if grouping.s == "na" then CanonicalLimit(orders.items.head) else CanonicalTrigger(orders.items.head), grouping.s)
  }

  function CanonicalModifyAction(f: Fields): Option<Js> {
    if !Only3(Record(f), KType, KOid, KOrder) || !AssetId(Get(f, KOid)) || Get(f, KOid).n < 1 then None
    else
      var order := CanonicalTrigger(Get(f, KOrder));
      if order.None? then None else Some(ModifyAction(Get(f, KOid).n, order.value))
  }

  function CanonicalCancelAction(f: Fields, byOid: bool): Option<Js> {
    var cancels := Get(f, KCancels);
    if !Only2(Record(f), KType, KCancels) || !cancels.List? || !(1 <= Length(cancels.items) <= MAX_BULK_CANCELS) then None
    else
      var items := CanonicalCancels(cancels.items, byOid);
      if items.None? then None else Some(CancelAction(if byOid then "cancel" else "cancelByCloid", items.value))
  }

  function CanonicalLeverageAction(f: Fields): Option<Js> {
    if || !Only4(Record(f), KType, KAsset, KIsCross, KLeverage)
       || !Get(f, KIsCross).Bool? || !Get(f, KLeverage).Num? || !(1 <= Get(f, KLeverage).n <= 100) || !AssetId(Get(f, KAsset))
    then None
    else Some(LeverageAction(Get(f, KAsset).n, Get(f, KIsCross).b, Get(f, KLeverage).n))
  }

  /** None when it throws. */
  function Canonicalize(raw: Js): Option<Js> {
    if !raw.Record? || !Get(raw.fields, KType).Str? then None
    else
      var kind := Get(raw.fields, KType).s;
      if kind == "order" then CanonicalOrderAction(raw.fields)
      else if kind == "modify" then CanonicalModifyAction(raw.fields)
      else if kind == "cancel" then CanonicalCancelAction(raw.fields, true)
      else if kind == "cancelByCloid" then CanonicalCancelAction(raw.fields, false)
      else if kind == "updateLeverage" then CanonicalLeverageAction(raw.fields)
      else None
  }
}

module CodecTheorems {
  import opened Base
  import opened Codec

  lemma LowerHex(s: string, n: nat)
    requires HexText(s, n)
    ensures HexText(Lower(s), n) && Lower(Lower(s)) == Lower(s)
  {
  }

  lemma ZeroIsCanonical()
    ensures Decimals.Canonical("0") && ZeroText("0")
  {
    assert "0"[..1] == "0" && Decimals.Dot("0") == 1;
  }

  /** Reading past the first field. */
  lemma GetFirst(k: Key, v: Js, rest: Fields)
    ensures Get(Field(k, v, rest), k) == v && Has(Field(k, v, rest), k)
    ensures Count(Field(k, v, rest)) == 1 + Count(rest)
    ensures forall j :: j != k ==> Get(Field(k, v, rest), j) == Get(rest, j) && Has(Field(k, v, rest), j) == Has(rest, j)
  {
  }

  /** An order in wire order is read field by field. */
  lemma OrderRead(a: int, b: bool, p: string, s: string, r: bool, t: Js, c: string)
    ensures var order := OrderFields(a, b, p, s, r, t, c);
      && OrderKeys(order)
      && Get(order.fields, KA) == Num(a) && Get(order.fields, KB) == Bool(b) && Get(order.fields, KP) == Str(p)
      && Get(order.fields, KS) == Str(s) && Get(order.fields, KR) == Bool(r) && Get(order.fields, KT) == t
      && Get(order.fields, KC) == Str(c)
  {
    var f7 := Field(KC, Str(c), NoFields);
    var f6 := Field(KT, t, f7);
    var f5 := Field(KR, Bool(r), f6);
    var f4 := Field(KS, Str(s), f5);
    var f3 := Field(KP, Str(p), f4);
    var f2 := Field(KB, Bool(b), f3);
    GetFirst(KC, Str(c), NoFields);
    GetFirst(KT, t, f7);
    GetFirst(KR, Bool(r), f6);
    GetFirst(KS, Str(s), f5);
    GetFirst(KP, Str(p), f4);
    GetFirst(KB, Bool(b), f3);
    GetFirst(KA, Num(a), f2);
  }

  lemma TypeRead(tif: string, px: string, tpsl: string)
    ensures Only1(LimitType(tif), KLimit)
    ensures var limit := Get(LimitType(tif).fields, KLimit);
      Only1(limit, KTif) && Get(limit.fields, KTif) == Str(tif)
    ensures Only1(TriggerType(px, tpsl), KTrigger)
    ensures var trigger := Get(TriggerType(px, tpsl).fields, KTrigger);
      && Only3(trigger, KIsMarket, KTriggerPx, KTpsl) && Get(trigger.fields, KIsMarket) == Bool(true)
      && Get(trigger.fields, KTriggerPx) == Str(px) && Get(trigger.fields, KTpsl) == Str(tpsl)
  {
    var f3 := Field(KTpsl, Str(tpsl), NoFields);
    var f2 := Field(KTriggerPx, Str(px), f3);
    GetFirst(KTpsl, Str(tpsl), NoFields);
    GetFirst(KTriggerPx, Str(px), f3);
    GetFirst(KIsMarket, Bool(true), f2);
    GetFirst(KTif, Str(tif), NoFields);
    GetFirst(KLimit, Record(Field(KTif, Str(tif), NoFields)), NoFields);
    GetFirst(KTrigger, Record(Field(KIsMarket, Bool(true), f2)), NoFields);
  }

  lemma CommonFixed(a: int, b: bool, p: string, s: string, r: bool, t: Js, c: string)
    requires AssetId(Num(a)) && PositiveJs(Str(p)) && Decimals.Canonical(s) && CloidJs(Str(c))
    ensures CommonOrder(OrderFields(a, b, p, s, r, t, c))
  {
    OrderRead(a, b, p, s, r, t, c);
  }

  /** A canonical limit order is left as it is. */
  lemma LimitFixed(a: int, b: bool, p: string, s: string, r: bool, tif: string, c: string)
    requires AssetId(Num(a)) && PositiveJs(Str(p)) && PositiveJs(Str(s)) && TifText(tif) && CloidJs(Str(c)) && Lower(c) == c
    ensures var order := OrderFields(a, b, p, s, r, LimitType(tif), c);
      CanonicalLimit(order) == Some(order)
  {
    CommonFixed(a, b, p, s, r, LimitType(tif), c);
    OrderRead(a, b, p, s, r, LimitType(tif), c);
    TypeRead(tif, "", "");
  }

  lemma TriggerFixed(a: int, b: bool, p: string, s: string, px: string, tpsl: string, c: string)
    requires AssetId(Num(a)) && PositiveJs(Str(p)) && Decimals.Canonical(s) && ZeroText(s) && PositiveJs(Str(px))
    requires TpslText(Str(tpsl)) && CloidJs(Str(c)) && Lower(c) == c
    ensures var order := OrderFields(a, b, p, s, true, TriggerType(px, tpsl), c);
      CanonicalTrigger(order) == Some(order)
  {
    CommonFixed(a, b, p, s, true, TriggerType(px, tpsl), c);
    OrderRead(a, b, p, s, true, TriggerType(px, tpsl), c);
    TypeRead("", px, tpsl);
  }

  lemma CancelFixed(a: int, o: int, c: string)
    requires Safe(a)
    ensures Safe(o) ==> CanonicalCancel(OidCancel(a, o), true) == Some(OidCancel(a, o))
    ensures CloidText(c) && Lower(c) == c ==> CanonicalCancel(CloidCancel(a, c), false) == Some(CloidCancel(a, c))
  {
    GetFirst(KO, Num(o), NoFields);
    GetFirst(KA, Num(a), Field(KO, Num(o), NoFields));
    GetFirst(KCloid, Str(c), NoFields);
    GetFirst(KAsset, Num(a), Field(KCloid, Str(c), NoFields));
  }

  /** Every item is left as it is. */
  predicate CancelsFixed(items: Items, byOid: bool) {
    items.Item? ==> CanonicalCancel(items.head, byOid) == Some(items.head) && CancelsFixed(items.tail, byOid)
  }

  lemma {:induction false} FixedCancels(items: Items, byOid: bool)
    requires CancelsFixed(items, byOid)
    ensures CanonicalCancels(items, byOid) == Some(items)
  {
    if items.Item? { FixedCancels(items.tail, byOid); }
  }

  /* ---- actions in wire order are fixed points ------------------------------------------- */

  lemma OrderActionRead(order: Js, grouping: string)
    ensures var f := OrderAction(order, grouping).fields;
      && Only3(Record(f), KType, KOrders, KGrouping)
      && Get(f, KType) == Str("order") && Get(f, KOrders) == List(Item(order, NoItems)) && Get(f, KGrouping) == Str(grouping)
  {
    var orders := List(Item(order, NoItems));
    var f3 := Field(KGrouping, Str(grouping), NoFields);
    GetFirst(KGrouping, Str(grouping), NoFields);
    GetFirst(KOrders, orders, f3);
    GetFirst(KType, Str("order"), Field(KOrders, orders, f3));
  }

  lemma LimitActionFixed(order: Js)
    requires CanonicalLimit(order) == Some(order)
    ensures Canonicalize(OrderAction(order, "na")) == Some(OrderAction(order, "na"))
  {
    OrderActionRead(order, "na");
    assert Length(Item(order, NoItems)) == 1;
  }

  lemma TriggerActionFixed(order: Js)
    requires CanonicalTrigger(order) == Some(order)
    ensures Canonicalize(OrderAction(order, "positionTpsl")) == Some(OrderAction(order, "positionTpsl"))
  {
    OrderActionRead(order, "positionTpsl");
    assert Length(Item(order, NoItems)) == 1;
    assert "na" != "positionTpsl" by { assert |"na"| == 2 && |"positionTpsl"| == 12; }
  }

  lemma ModifyRead(oid: int, order: Js)
    ensures var f := ModifyAction(oid, order).fields;
      && Only3(Record(f), KType, KOid, KOrder)
      && Get(f, KType) == Str("modify") && Get(f, KOid) == Num(oid) && Get(f, KOrder) == order
  {
    var f3 := Field(KOrder, order, NoFields);
    GetFirst(KOrder, order, NoFields);
    GetFirst(KOid, Num(oid), f3);
    GetFirst(KType, Str("modify"), Field(KOid, Num(oid), f3));
  }

  lemma ModifyActionFixed(oid: int, order: Js)
    requires Safe(oid) && CanonicalTrigger(order) == Some(order)
    ensures Canonicalize(ModifyAction(oid, order)) == if oid == 0 then None else Some(ModifyAction(oid, order))
  {
    ModifyRead(oid, order);
    KindsDiffer();
  }

  lemma CancelActionFixed(items: Items, byOid: bool)
    requires CancelsFixed(items, byOid) && 1 <= Length(items) <= MAX_BULK_CANCELS
    ensures var action := CancelAction(if byOid then "cancel" else "cancelByCloid", items);
      Canonicalize(action) == Some(action)
  {
    FixedCancels(items, byOid);
    var kind := if byOid then "cancel" else "cancelByCloid";
    var f2 := Field(KCancels, List(items), NoFields);
    GetFirst(KCancels, List(items), NoFields);
    GetFirst(KType, Str(kind), f2);
    KindsDiffer();
  }

  lemma KindsDiffer()
    ensures "cancel" != "order" && "cancel" != "modify" && "modify" != "order" && "cancelByCloid" != "cancel"
    ensures "cancelByCloid" != "order" && "cancelByCloid" != "modify"
    ensures "updateLeverage" != "order" && "updateLeverage" != "modify" && "updateLeverage" != "cancel" && "updateLeverage" != "cancelByCloid"
  {
    assert |"cancel"| == 6 && |"order"| == 5 && |"modify"| == 6 && |"cancelByCloid"| == 13 && |"updateLeverage"| == 14;
    assert "cancel"[0] == 'c' && "modify"[0] == 'm';
  }

  lemma LeverageActionFixed(a: int, cross: bool, leverage: int)
    requires Safe(a) && 1 <= leverage <= 100
    ensures Canonicalize(LeverageAction(a, cross, leverage)) == Some(LeverageAction(a, cross, leverage))
  {
    var f4 := Field(KLeverage, Num(leverage), NoFields);
    var f3 := Field(KIsCross, Bool(cross), f4);
    var f2 := Field(KAsset, Num(a), f3);
    GetFirst(KLeverage, Num(leverage), NoFields);
    GetFirst(KIsCross, Bool(cross), f4);
    GetFirst(KAsset, Num(a), f3);
    GetFirst(KType, Str("updateLeverage"), f2);
    KindsDiffer();
  }

  /* ---- builders ---------------------------------------------------------------------------- */

  lemma OrderWireFixed(a: int, side: string, price: string, size: string, reduceOnly: Js, tif: string, cloid: string)
    requires OrderWire(a, side, price, size, reduceOnly, tif, cloid).Some?
    ensures var order := OrderWire(a, side, price, size, reduceOnly, tif, cloid).value;
      CanonicalLimit(order) == Some(order)
  {
    LowerHex(cloid, 32);
    LimitFixed(a, side == "buy", price, size, reduceOnly.b, tif, Lower(cloid));
  }

  lemma TriggerWireFixed(a: int, side: string, size: string, trigger: string, price: string, kind: string, cloid: string)
    requires TriggerWire(a, side, size, trigger, price, kind, cloid).Some?
    ensures var order := TriggerWire(a, side, size, trigger, price, kind, cloid).value;
      CanonicalTrigger(order) == Some(order)
  {
    LowerHex(cloid, 32);
    ZeroIsCanonical();
    TriggerFixed(a, side == "buy", price, "0", trigger, if kind == "take_profit" then "tp" else "sl", Lower(cloid));
  }

  lemma {:induction false} CancelWiresFixed(cancels: seq<CancelOf>, byOid: bool)
    requires CancelWires(cancels, byOid).Some?
    ensures CancelsFixed(CancelWires(cancels, byOid).value, byOid)
    ensures Length(CancelWires(cancels, byOid).value) == |cancels|
  {
    if cancels != [] {
      CancelWiresFixed(cancels[1..], byOid);
      var c := cancels[0];
      if c.target.CloidTarget? {
        LowerHex(c.target.cloid, 32);
        CancelFixed(c.assetId, 0, Lower(c.target.cloid));
      } else {
        CancelFixed(c.assetId, c.target.oid, "");
      }
    }
  }

  lemma BuildCancelsFixed(cancels: seq<CancelOf>)
    requires BuildCancels(cancels).Some?
    ensures Canonicalize(BuildCancels(cancels).value) == BuildCancels(cancels)
  {
    var byOid := cancels[0].target.OidTarget?;
    CancelWiresFixed(cancels, byOid);
    CancelActionFixed(CancelWires(cancels, byOid).value, byOid);
  }

  /** The codec takes every built action unchanged, except a modification of order 0, which it refuses. */
  lemma BuiltIsCanonical(intent: Intent)
    requires Build(intent).Some?
    ensures Canonicalize(Build(intent).value) ==
      if intent.PositionTpsl? && intent.existingOid == Some(0) then None else Build(intent)
  {
    match intent
    case MarketOrder(a, side, size, price, cloid) =>
      OrderWireFixed(a, side, price, size, Bool(false), "Ioc", cloid);
      LimitActionFixed(OrderWire(a, side, price, size, Bool(false), "Ioc", cloid).value);
    case LimitOrder(a, side, size, price, tif, reduceOnly, cloid) =>
      OrderWireFixed(a, side, price, size, reduceOnly, tif, cloid);
      LimitActionFixed(OrderWire(a, side, price, size, reduceOnly, tif, cloid).value);
    case ReduceOnlyClose(a, side, size, price, cloid) =>
      OrderWireFixed(a, side, price, size, Bool(true), "Ioc", cloid);
      LimitActionFixed(OrderWire(a, side, price, size, Bool(true), "Ioc", cloid).value);
    case PositionTpsl(a, side, size, trigger, price, kind, existing, cloid) =>
      TriggerWireFixed(a, side, size, trigger, price, kind, cloid);
      var order := TriggerWire(a, side, size, trigger, price, kind, cloid).value;
      if existing.None? { TriggerActionFixed(order); } else { ModifyActionFixed(existing.value, order); }
    case Cancel(one) => BuildCancelsFixed([one]);
    case BulkCancel(cancels) => BuildCancelsFixed(cancels);
    case UpdateLeverage(a, mode, leverage) => LeverageActionFixed(a, mode == "cross", leverage);
  }

  /* ---- idempotence ---------------------------------------------------------------------------- */

  lemma LimitIdempotent(v: Js)
    requires CanonicalLimit(v).Some?
    ensures CanonicalLimit(CanonicalLimit(v).value) == CanonicalLimit(v)
  {
    var limit := Get(Get(v.fields, KT).fields, KLimit);
    LowerHex(Get(v.fields, KC).s, 32);
    LimitFixed(Get(v.fields, KA).n, Get(v.fields, KB).b, Get(v.fields, KP).s, Get(v.fields, KS).s, Get(v.fields, KR).b,
               Get(limit.fields, KTif).s, Lower(Get(v.fields, KC).s));
  }

  lemma TriggerIdempotent(v: Js)
    requires CanonicalTrigger(v).Some?
    ensures CanonicalTrigger(CanonicalTrigger(v).value) == CanonicalTrigger(v)
  {
    var trigger := Get(Get(v.fields, KT).fields, KTrigger);
    LowerHex(Get(v.fields, KC).s, 32);
    TriggerFixed(Get(v.fields, KA).n, Get(v.fields, KB).b, Get(v.fields, KP).s, Get(v.fields, KS).s,
                 Get(trigger.fields, KTriggerPx).s, Get(trigger.fields, KTpsl).s, Lower(Get(v.fields, KC).s));
  }

  lemma {:induction false} CancelsIdempotent(items: Items, byOid: bool)
    requires CanonicalCancels(items, byOid).Some?
    ensures CancelsFixed(CanonicalCancels(items, byOid).value, byOid)
    ensures Length(CanonicalCancels(items, byOid).value) == Length(items)
  {
    if items.Item? {
      CancelsIdempotent(items.tail, byOid);
      var f := items.head.fields;
      if byOid {
        CancelFixed(Get(f, KA).n, Get(f, KO).n, "");
      } else {
        LowerHex(Get(f, KCloid).s, 32);
        CancelFixed(Get(f, KAsset).n, 0, Lower(Get(f, KCloid).s));
      }
    }
  }

  /** Canonicalizing twice is canonicalizing once. */
  lemma CanonicalizeIdempotent(raw: Js)
    requires Canonicalize(raw).Some?
    ensures Canonicalize(Canonicalize(raw).value) == Canonicalize(raw)
  {
    var f := raw.fields;
    var kind := Get(f, KType).s;
    KindsDiffer();
    if kind == "order" {
      var order, grouping := Get(f, KOrders).items.head, Get(f, KGrouping).s;
      if grouping == "na" {
        LimitIdempotent(order);
        LimitActionFixed(CanonicalLimit(order).value);
      } else {
        TriggerIdempotent(order);
        TriggerActionFixed(CanonicalTrigger(order).value);
      }
    } else if kind == "modify" {
      TriggerIdempotent(Get(f, KOrder));
      ModifyActionFixed(Get(f, KOid).n, CanonicalTrigger(Get(f, KOrder)).value);
    } else if kind == "cancel" || kind == "cancelByCloid" {
      var byOid := kind == "cancel";
      CancelsIdempotent(Get(f, KCancels).items, byOid);
      CancelActionFixed(CanonicalCancels(Get(f, KCancels).items, byOid).value, byOid);
    } else {
      LeverageActionFixed(Get(f, KAsset).n, Get(f, KIsCross).b, Get(f, KLeverage).n);
    }
  }
}
