/**
 What a wire action says: it is read back by property name and compared with the intent it was
 built from, and every action the codec accepts is one a builder makes.
 */
module CodecMeaning {
  import opened Base
  import opened Codec
  import opened CodecTheorems
  import Decimals
  import DecimalTheorems

  /* ---- reading by name ----------------------------------------------------------- */

  function At(v: Js, k: Key): Js {
    if v.Record? then Get(v.fields, k) else Alien
  }

  /** Property `i` of a list. */
  function Nth(items: Items, i: nat): Js {
    if items.NoItems? then Alien else if i == 0 then items.head else Nth(items.tail, i - 1)
  }

  /** `toLowerCase`, unit by unit. */
  predicate Lowered(c: Js, s: string) {
    && c.Str? && |c.s| == |s|
    && forall i :: 0 <= i < |s| ==>
         if 'A' <= s[i] <= 'Z' then c.s[i] as int == s[i] as int + 32 else c.s[i] == s[i]
  }

  lemma LowerIsLowered(s: string)
    ensures Lowered(Str(Lower(s)), s)
  {
  }

  /** One order: seven properties, the asset, the side, price and size, reduce-only, and the client id in lower case. */
  predicate IsOrder(order: Js, a: int, buy: bool, price: string, size: string, reduceOnly: bool, cloid: string) {
    && OrderKeys(order)
    && At(order, KA) == Num(a) && At(order, KB) == Bool(buy) && At(order, KP) == Str(price) && At(order, KS) == Str(size)
    && At(order, KR) == Bool(reduceOnly) && Lowered(At(order, KC), cloid)
  }

  predicate IsLimit(order: Js, tif: string) {
    && Only1(At(order, KT), KLimit) && Only1(At(At(order, KT), KLimit), KTif)
    && At(At(At(order, KT), KLimit), KTif) == Str(tif)
  }

  predicate IsTrigger(order: Js, price: string, tpsl: string) {
    && Only1(At(order, KT), KTrigger)
    && var trigger := At(At(order, KT), KTrigger);
    && Only3(trigger, KIsMarket, KTriggerPx, KTpsl)
    && At(trigger, KIsMarket) == Bool(true) && At(trigger, KTriggerPx) == Str(price) && At(trigger, KTpsl) == Str(tpsl)
  }

  /** An order action with one order. */
  predicate IsOrderAction(action: Js, grouping: string) {
    && Only3(action, KType, KOrders, KGrouping)
    && At(action, KType) == Str("order") && At(action, KGrouping) == Str(grouping)
    && At(action, KOrders).List? && Length(At(action, KOrders).items) == 1
  }

  function OneOrder(action: Js): Js {
    if At(action, KOrders).List? then Nth(At(action, KOrders).items, 0) else Alien
  }

  predicate IsLimitAction(action: Js, a: int, buy: bool, price: string, size: string, reduceOnly: bool, tif: string, cloid: string) {
    IsOrderAction(action, "na") && IsOrder(OneOrder(action), a, buy, price, size, reduceOnly, cloid) && IsLimit(OneOrder(action), tif)
  }

  /** One cancellation, by order id or by client id. */
  predicate IsCancel(v: Js, c: CancelOf) {
    match c.target
    case OidTarget(oid) => Only2(v, KA, KO) && At(v, KA) == Num(c.assetId) && At(v, KO) == Num(oid)
    case CloidTarget(cloid) => Only2(v, KAsset, KCloid) && At(v, KAsset) == Num(c.assetId) && Lowered(At(v, KCloid), cloid)
  }

  predicate IsCancelAction(action: Js, cancels: seq<CancelOf>) {
    && cancels != [] && Only2(action, KType, KCancels)
    && At(action, KType) == Str(if cancels[0].target.OidTarget? then "cancel" else "cancelByCloid")
    && At(action, KCancels).List? && Length(At(action, KCancels).items) == |cancels|
    && forall i :: 0 <= i < |cancels| ==> IsCancel(Nth(At(action, KCancels).items, i), cancels[i])
  }

  /** A market trigger that follows the whole position: size zero, reduce-only. */
  predicate IsTpsl(order: Js, a: int, side: string, trigger: string, price: string, kind: string, cloid: string) {
    && IsOrder(order, a, side == "buy", price, "0", true, cloid)
    && IsTrigger(order, trigger, if kind == "take_profit" then "tp" else "sl")
  }

  predicate IsModifyAction(action: Js, oid: int) {
    Only3(action, KType, KOid, KOrder) && At(action, KType) == Str("modify") && At(action, KOid) == Num(oid)
  }

  /** What the wire action of an intent says. */
  predicate Says(action: Js, intent: Intent) {
    match intent
    case MarketOrder(a, side, size, price, cloid) => IsLimitAction(action, a, side == "buy", price, size, false, "Ioc", cloid)
    case LimitOrder(a, side, size, price, tif, reduceOnly, cloid) =>
      reduceOnly.Bool? && IsLimitAction(action, a, side == "buy", price, size, reduceOnly.b, tif, cloid)
    case ReduceOnlyClose(a, side, size, price, cloid) => IsLimitAction(action, a, side == "buy", price, size, true, "Ioc", cloid)
    case PositionTpsl(a, side, size, trigger, price, kind, existing, cloid) =>
      (match existing
       case None => IsOrderAction(action, "positionTpsl") && IsTpsl(OneOrder(action), a, side, trigger, price, kind, cloid)
       case Some(oid) => IsModifyAction(action, oid) && IsTpsl(At(action, KOrder), a, side, trigger, price, kind, cloid))
    case Cancel(one) => IsCancelAction(action, [one])
    case BulkCancel(cancels) => IsCancelAction(action, cancels)
    case UpdateLeverage(a, mode, leverage) =>
      && Only4(action, KType, KAsset, KIsCross, KLeverage) && At(action, KType) == Str("updateLeverage")
      && At(action, KAsset) == Num(a) && At(action, KIsCross) == Bool(mode == "cross") && At(action, KLeverage) == Num(leverage)
  }

  /* ---- which intents are built ------------------------------------------------------- */

  /** A decimal in shortest form that is greater than zero. */
  predicate PositiveDecimal(s: string) {
    Decimals.Canonical(s) && Decimals.Magnitude(s) > 0.0
  }

  lemma PositiveTextIs(s: string)
    ensures PositiveText(s) <==> PositiveDecimal(s)
  {
    if Decimals.Canonical(s) {
      DecimalTheorems.MagnitudeSign(s);
    }
  }

  predicate OrderId(n: int) {
    0 <= n <= 9_007_199_254_740_991
  }

  predicate ClientId(s: string) {
    && |s| == 34 && s[..2] == "0x"
    && forall i :: 2 <= i < 34 ==> '0' <= s[i] <= '9' || 'a' <= s[i] <= 'f' || 'A' <= s[i] <= 'F'
  }

  predicate Placeable(a: int, side: string, size: string, price: string, cloid: string) {
    OrderId(a) && (side == "buy" || side == "sell") && PositiveDecimal(size) && PositiveDecimal(price) && ClientId(cloid)
  }

  predicate Cancellable(c: CancelOf) {
    && OrderId(c.assetId)
    && match c.target
       case OidTarget(oid) => OrderId(oid)
       case CloidTarget(cloid) => ClientId(cloid)
  }

  /** Between one and a hundred cancellations, all of one kind. */
  predicate CancellableTogether(cancels: seq<CancelOf>) {
    && 1 <= |cancels| <= 100
    && forall i :: 0 <= i < |cancels| ==> Cancellable(cancels[i]) && cancels[i].target.OidTarget? == cancels[0].target.OidTarget?
  }

  predicate Buildable(intent: Intent) {
    match intent
    case MarketOrder(a, side, size, price, cloid) => Placeable(a, side, size, price, cloid)
    case LimitOrder(a, side, size, price, tif, reduceOnly, cloid) =>
      Placeable(a, side, size, price, cloid) && (tif == "Alo" || tif == "Gtc" || tif == "Ioc") && reduceOnly.Bool?
    case ReduceOnlyClose(a, side, size, price, cloid) => Placeable(a, side, size, price, cloid)
    case PositionTpsl(a, side, size, trigger, price, kind, existing, cloid) =>
      && Placeable(a, side, size, price, cloid) && PositiveDecimal(trigger)
      && (kind == "take_profit" || kind == "stop_loss") && (existing.Some? ==> OrderId(existing.value))
    case Cancel(one) => Cancellable(one)
    case BulkCancel(cancels) => CancellableTogether(cancels)
    case UpdateLeverage(a, mode, leverage) => OrderId(a) && (mode == "cross" || mode == "isolated") && 1 <= leverage <= 100
  }

  lemma ClientIdIs(s: string)
    ensures CloidText(s) <==> ClientId(s)
  {
    if |s| == 34 { assert s[..2] == [s[0], s[1]]; }
  }

  lemma OrderWireExactly(a: int, side: string, price: string, size: string, reduceOnly: Js, tif: string, cloid: string)
    ensures OrderWire(a, side, price, size, reduceOnly, tif, cloid).Some? <==>
      Placeable(a, side, size, price, cloid) && (tif == "Alo" || tif == "Gtc" || tif == "Ioc") && reduceOnly.Bool?
  {
    PositiveTextIs(price);
    PositiveTextIs(size);
    ClientIdIs(cloid);
  }

  lemma TriggerWireExactly(a: int, side: string, size: string, trigger: string, price: string, kind: string, cloid: string)
    ensures TriggerWire(a, side, size, trigger, price, kind, cloid).Some? <==>
      Placeable(a, side, size, price, cloid) && PositiveDecimal(trigger) && (kind == "take_profit" || kind == "stop_loss")
  {
    PositiveTextIs(price);
    PositiveTextIs(size);
    PositiveTextIs(trigger);
    ClientIdIs(cloid);
  }

  lemma CancelExactly(c: CancelOf, byOid: bool)
    ensures CancelWire(c, byOid).Some? <==> Cancellable(c) && c.target.OidTarget? == byOid
    ensures CancelWire(c, byOid).Some? ==> IsCancel(CancelWire(c, byOid).value, c)
  {
    match c.target
    case OidTarget(oid) =>
      GetFirst(KO, Num(oid), NoFields);
      GetFirst(KA, Num(c.assetId), Field(KO, Num(oid), NoFields));
    case CloidTarget(cloid) =>
      ClientIdIs(cloid);
      LowerIsLowered(cloid);
      GetFirst(KCloid, Str(Lower(cloid)), NoFields);
      GetFirst(KAsset, Num(c.assetId), Field(KCloid, Str(Lower(cloid)), NoFields));
  }

  lemma {:induction false} CancelsExactly(cancels: seq<CancelOf>, byOid: bool)
    ensures CancelWires(cancels, byOid).Some? <==>
      forall i :: 0 <= i < |cancels| ==> Cancellable(cancels[i]) && cancels[i].target.OidTarget? == byOid
    ensures CancelWires(cancels, byOid).Some? ==>
      && Length(CancelWires(cancels, byOid).value) == |cancels|
      && forall i :: 0 <= i < |cancels| ==> IsCancel(Nth(CancelWires(cancels, byOid).value, i), cancels[i])
  {
    if cancels != [] {
      CancelExactly(cancels[0], byOid);
      CancelsExactly(cancels[1..], byOid);
      assert forall i :: 1 <= i < |cancels| ==> cancels[i] == cancels[1..][i - 1];
    }
  }

  lemma BuildCancelsExactly(cancels: seq<CancelOf>)
    ensures BuildCancels(cancels).Some? <==> CancellableTogether(cancels)
    ensures BuildCancels(cancels).Some? ==> IsCancelAction(BuildCancels(cancels).value, cancels)
  {
    if cancels != [] {
      var byOid := cancels[0].target.OidTarget?;
      CancelsExactly(cancels, byOid);
      if BuildCancels(cancels).Some? {
        var items := CancelWires(cancels, byOid).value;
        GetFirst(KCancels, List(items), NoFields);
        GetFirst(KType, Str(if byOid then "cancel" else "cancelByCloid"), Field(KCancels, List(items), NoFields));
      }
    }
  }

  /** An intent is built exactly when its side, decimals, ids, kinds and counts are what the exchange takes. */
  lemma BuildsExactly(intent: Intent)
    ensures Build(intent).Some? <==> Buildable(intent)
  {
    match intent
    case MarketOrder(a, side, size, price, cloid) => OrderWireExactly(a, side, price, size, Bool(false), "Ioc", cloid);
    case LimitOrder(a, side, size, price, tif, reduceOnly, cloid) => OrderWireExactly(a, side, price, size, reduceOnly, tif, cloid);
    case ReduceOnlyClose(a, side, size, price, cloid) => OrderWireExactly(a, side, price, size, Bool(true), "Ioc", cloid);
    case PositionTpsl(a, side, size, trigger, price, kind, existing, cloid) => TriggerWireExactly(a, side, size, trigger, price, kind, cloid);
    case Cancel(one) => BuildCancelsExactly([one]);
    case BulkCancel(cancels) => BuildCancelsExactly(cancels);
    case UpdateLeverage(a, mode, leverage) =>
  }

  /* ---- built actions say what was asked for --------------------------------------------- */

  lemma OrderWireSays(a: int, side: string, price: string, size: string, reduceOnly: Js, tif: string, cloid: string)
    requires OrderWire(a, side, price, size, reduceOnly, tif, cloid).Some?
    ensures reduceOnly.Bool?
    ensures IsOrder(OrderWire(a, side, price, size, reduceOnly, tif, cloid).value, a, side == "buy", price, size, reduceOnly.b, cloid)
    ensures IsLimit(OrderWire(a, side, price, size, reduceOnly, tif, cloid).value, tif)
  {
    OrderRead(a, side == "buy", price, size, reduceOnly.b, LimitType(tif), Lower(cloid));
    TypeRead(tif, "", "");
    LowerIsLowered(cloid);
  }

  lemma TriggerWireSays(a: int, side: string, size: string, trigger: string, price: string, kind: string, cloid: string)
    requires TriggerWire(a, side, size, trigger, price, kind, cloid).Some?
    ensures IsTpsl(TriggerWire(a, side, size, trigger, price, kind, cloid).value, a, side, trigger, price, kind, cloid)
  {
    var tpsl := if kind == "take_profit" then "tp" else "sl";
    OrderRead(a, side == "buy", price, "0", true, TriggerType(trigger, tpsl), Lower(cloid));
    TypeRead("", trigger, tpsl);
    LowerIsLowered(cloid);
  }

  lemma ActionSays(order: Js, grouping: string)
    ensures IsOrderAction(OrderAction(order, grouping), grouping) && OneOrder(OrderAction(order, grouping)) == order
  {
    OrderActionRead(order, grouping);
    assert Length(Item(order, NoItems)) == 1;
  }

  lemma ModifySays(oid: int, order: Js)
    ensures IsModifyAction(ModifyAction(oid, order), oid) && At(ModifyAction(oid, order), KOrder) == order
  {
    ModifyRead(oid, order);
  }

  /** The action around a trigger order. */
  function TpslAction(order: Js, existing: Option<int>): Js {
    if existing.None? then OrderAction(order, "positionTpsl") else ModifyAction(existing.value, order)
  }

  lemma TpslActionSays(intent: Intent, order: Js)
    requires intent.PositionTpsl?
    requires IsTpsl(order, intent.assetId, intent.side, intent.triggerPrice, intent.price, intent.triggerKind, intent.cloid)
    ensures Says(TpslAction(order, intent.existingOid), intent)
  {
    if intent.existingOid.Some? {
      ModifySays(intent.existingOid.value, order);
    } else {
      ActionSays(order, "positionTpsl");
    }
  }

  lemma TpslBuilt(a: int, side: string, size: string, trigger: string, price: string, kind: string, existing: Option<int>, cloid: string)
    requires Build(PositionTpsl(a, side, size, trigger, price, kind, existing, cloid)).Some?
    ensures TriggerWire(a, side, size, trigger, price, kind, cloid).Some?
    ensures Build(PositionTpsl(a, side, size, trigger, price, kind, existing, cloid)).value
      == TpslAction(TriggerWire(a, side, size, trigger, price, kind, cloid).value, existing)
  {
  }

  lemma TpslSays(a: int, side: string, size: string, trigger: string, price: string, kind: string, existing: Option<int>, cloid: string)
    requires Build(PositionTpsl(a, side, size, trigger, price, kind, existing, cloid)).Some?
    ensures Says(Build(PositionTpsl(a, side, size, trigger, price, kind, existing, cloid)).value,
                 PositionTpsl(a, side, size, trigger, price, kind, existing, cloid))
  {
    TpslBuilt(a, side, size, trigger, price, kind, existing, cloid);
    TriggerWireSays(a, side, size, trigger, price, kind, cloid);
    TpslActionSays(PositionTpsl(a, side, size, trigger, price, kind, existing, cloid),
                   TriggerWire(a, side, size, trigger, price, kind, cloid).value);
  }

  lemma LeverageSays(a: int, cross: bool, leverage: int)
    ensures var action := LeverageAction(a, cross, leverage);
      && Only4(action, KType, KAsset, KIsCross, KLeverage) && At(action, KType) == Str("updateLeverage")
      && At(action, KAsset) == Num(a) && At(action, KIsCross) == Bool(cross) && At(action, KLeverage) == Num(leverage)
  {
    var f4 := Field(KLeverage, Num(leverage), NoFields);
    var f3 := Field(KIsCross, Bool(cross), f4);
    var f2 := Field(KAsset, Num(a), f3);
    GetFirst(KLeverage, Num(leverage), NoFields);
    GetFirst(KIsCross, Bool(cross), f4);
    GetFirst(KAsset, Num(a), f3);
    GetFirst(KType, Str("updateLeverage"), f2);
  }

  /** Every built action, read by property name, says exactly what its intent asks for. */
  lemma BuiltSays(intent: Intent)
    requires Build(intent).Some?
    ensures Says(Build(intent).value, intent)
  {
    match intent
    case MarketOrder(a, side, size, price, cloid) =>
      OrderWireSays(a, side, price, size, Bool(false), "Ioc", cloid);
      ActionSays(OrderWire(a, side, price, size, Bool(false), "Ioc", cloid).value, "na");
    case LimitOrder(a, side, size, price, tif, reduceOnly, cloid) =>
      OrderWireSays(a, side, price, size, reduceOnly, tif, cloid);
      ActionSays(OrderWire(a, side, price, size, reduceOnly, tif, cloid).value, "na");
    case ReduceOnlyClose(a, side, size, price, cloid) =>
      OrderWireSays(a, side, price, size, Bool(true), "Ioc", cloid);
      ActionSays(OrderWire(a, side, price, size, Bool(true), "Ioc", cloid).value, "na");
    case PositionTpsl(a, side, size, trigger, price, kind, existing, cloid) =>
      TpslSays(a, side, size, trigger, price, kind, existing, cloid);
    case Cancel(one) => BuildCancelsExactly([one]);
    case BulkCancel(cancels) => BuildCancelsExactly(cancels);
    case UpdateLeverage(a, mode, leverage) => LeverageSays(a, mode == "cross", leverage);
  }

  /* ---- the order of properties, which the hash depends on ----------------------------------- */

  function Names(v: Js): seq<Key> {
    if v.Record? then FieldNames(v.fields) else []
  }

  function FieldNames(fields: Fields): seq<Key> {
    if fields.NoFields? then [] else [fields.key] + FieldNames(fields.rest)
  }

  predicate OrderInOrder(order: Js) {
    && Names(order) == [KA, KB, KP, KS, KR, KT, KC]
    && (Names(At(order, KT)) == [KLimit] || Names(At(order, KT)) == [KTrigger])
    && (Names(At(order, KT)) == [KLimit] ==> Names(At(At(order, KT), KLimit)) == [KTif])
    && (Names(At(order, KT)) == [KTrigger] ==> Names(At(At(order, KT), KTrigger)) == [KIsMarket, KTriggerPx, KTpsl])
  }

  predicate CancelsInOrder(items: Items, byOid: bool) {
    items.Item? ==> Names(items.head) == (if byOid then [KA, KO] else [KAsset, KCloid]) && CancelsInOrder(items.tail, byOid)
  }

  /** The properties of an action in the order in which they are hashed. */
  predicate InWireOrder(action: Js) {
    || (Names(action) == [KType, KOrders, KGrouping] && OrderInOrder(OneOrder(action)))
    || (Names(action) == [KType, KOid, KOrder] && OrderInOrder(At(action, KOrder)))
    || (&& Names(action) == [KType, KCancels] && At(action, KCancels).List?
        && CancelsInOrder(At(action, KCancels).items, At(action, KType) == Str("cancel")))
    || Names(action) == [KType, KAsset, KIsCross, KLeverage]
  }

  lemma NamesMore(k: Key, v: Js, rest: Fields)
    ensures FieldNames(Field(k, v, rest)) == [k] + FieldNames(rest)
  {
  }

  lemma OrderFieldsInOrder(a: int, b: bool, p: string, s: string, r: bool, t: Js, c: string)
    ensures Names(OrderFields(a, b, p, s, r, t, c)) == [KA, KB, KP, KS, KR, KT, KC]
    ensures At(OrderFields(a, b, p, s, r, t, c), KT) == t
  {
    var f7 := Field(KC, Str(c), NoFields);
    var f6 := Field(KT, t, f7);
    var f5 := Field(KR, Bool(r), f6);
    var f4 := Field(KS, Str(s), f5);
    var f3 := Field(KP, Str(p), f4);
    NamesMore(KC, Str(c), NoFields);
    NamesMore(KT, t, f7);
    NamesMore(KR, Bool(r), f6);
    NamesMore(KS, Str(s), f5);
    NamesMore(KP, Str(p), f4);
    NamesMore(KB, Bool(b), f3);
    NamesMore(KA, Num(a), Field(KB, Bool(b), f3));
    OrderRead(a, b, p, s, r, t, c);
  }

  lemma TypesInOrder(tif: string, px: string, tpsl: string)
    ensures Names(LimitType(tif)) == [KLimit] && Names(At(LimitType(tif), KLimit)) == [KTif]
    ensures Names(TriggerType(px, tpsl)) == [KTrigger] && Names(At(TriggerType(px, tpsl), KTrigger)) == [KIsMarket, KTriggerPx, KTpsl]
  {
    TypeRead(tif, px, tpsl);
    NamesMore(KTif, Str(tif), NoFields);
    NamesMore(KTpsl, Str(tpsl), NoFields);
    NamesMore(KTriggerPx, Str(px), Field(KTpsl, Str(tpsl), NoFields));
  }

  lemma OrderWireInOrder(a: int, side: string, price: string, size: string, reduceOnly: Js, tif: string, cloid: string)
    requires OrderWire(a, side, price, size, reduceOnly, tif, cloid).Some?
    ensures OrderInOrder(OrderWire(a, side, price, size, reduceOnly, tif, cloid).value)
  {
    OrderFieldsInOrder(a, side == "buy", price, size, reduceOnly.b, LimitType(tif), Lower(cloid));
    TypesInOrder(tif, "", "");
  }

  lemma TriggerWireInOrder(a: int, side: string, size: string, trigger: string, price: string, kind: string, cloid: string)
    requires TriggerWire(a, side, size, trigger, price, kind, cloid).Some?
    ensures OrderInOrder(TriggerWire(a, side, size, trigger, price, kind, cloid).value)
  {
    var tpsl := if kind == "take_profit" then "tp" else "sl";
    OrderFieldsInOrder(a, side == "buy", price, "0", true, TriggerType(trigger, tpsl), Lower(cloid));
    TypesInOrder("", trigger, tpsl);
  }

  lemma ActionInOrder(order: Js, grouping: string)
    requires OrderInOrder(order)
    ensures InWireOrder(OrderAction(order, grouping))
  {
    ActionSays(order, grouping);
    var f3 := Field(KGrouping, Str(grouping), NoFields);
    NamesMore(KGrouping, Str(grouping), NoFields);
    NamesMore(KOrders, List(Item(order, NoItems)), f3);
    NamesMore(KType, Str("order"), Field(KOrders, List(Item(order, NoItems)), f3));
  }

  lemma ModifyInOrder(oid: int, order: Js)
    requires OrderInOrder(order)
    ensures InWireOrder(ModifyAction(oid, order))
  {
    ModifySays(oid, order);
    NamesMore(KOrder, order, NoFields);
    NamesMore(KOid, Num(oid), Field(KOrder, order, NoFields));
    NamesMore(KType, Str("modify"), Field(KOid, Num(oid), Field(KOrder, order, NoFields)));
  }

  lemma {:induction false} CancelWiresInOrder(cancels: seq<CancelOf>, byOid: bool)
    requires CancelWires(cancels, byOid).Some?
    ensures CancelsInOrder(CancelWires(cancels, byOid).value, byOid)
  {
    if cancels != [] {
      CancelWiresInOrder(cancels[1..], byOid);
      var c := cancels[0];
      if c.target.OidTarget? {
        NamesMore(KO, Num(c.target.oid), NoFields);
      } else {
        NamesMore(KCloid, Str(Lower(c.target.cloid)), NoFields);
      }
    }
  }

  lemma BuildCancelsInOrder(cancels: seq<CancelOf>)
    requires BuildCancels(cancels).Some?
    ensures InWireOrder(BuildCancels(cancels).value)
  {
    var byOid := cancels[0].target.OidTarget?;
    CancelWiresInOrder(cancels, byOid);
    BuildCancelsExactly(cancels);
    KindsDiffer();
    var items := CancelWires(cancels, byOid).value;
    NamesMore(KCancels, List(items), NoFields);
    NamesMore(KType, Str(if byOid then "cancel" else "cancelByCloid"), Field(KCancels, List(items), NoFields));
    GetFirst(KCancels, List(items), NoFields);
    GetFirst(KType, Str(if byOid then "cancel" else "cancelByCloid"), Field(KCancels, List(items), NoFields));
  }

  /** Every built action lists its properties in wire order. */
  lemma BuiltInWireOrder(intent: Intent)
    requires Build(intent).Some?
    ensures InWireOrder(Build(intent).value)
  {
    match intent
    case MarketOrder(a, side, size, price, cloid) =>
      OrderWireInOrder(a, side, price, size, Bool(false), "Ioc", cloid);
      ActionInOrder(OrderWire(a, side, price, size, Bool(false), "Ioc", cloid).value, "na");
    case LimitOrder(a, side, size, price, tif, reduceOnly, cloid) =>
      OrderWireInOrder(a, side, price, size, reduceOnly, tif, cloid);
      ActionInOrder(OrderWire(a, side, price, size, reduceOnly, tif, cloid).value, "na");
    case ReduceOnlyClose(a, side, size, price, cloid) =>
      OrderWireInOrder(a, side, price, size, Bool(true), "Ioc", cloid);
      ActionInOrder(OrderWire(a, side, price, size, Bool(true), "Ioc", cloid).value, "na");
    case PositionTpsl(a, side, size, trigger, price, kind, existing, cloid) =>
      TpslBuilt(a, side, size, trigger, price, kind, existing, cloid);
      TriggerWireInOrder(a, side, size, trigger, price, kind, cloid);
      var order := TriggerWire(a, side, size, trigger, price, kind, cloid).value;
      if existing.Some? { ModifyInOrder(existing.value, order); } else { ActionInOrder(order, "positionTpsl"); }
    case Cancel(one) => BuildCancelsInOrder([one]);
    case BulkCancel(cancels) => BuildCancelsInOrder(cancels);
    case UpdateLeverage(a, mode, leverage) => LeverageInOrder(a, mode == "cross", leverage);
  }

  lemma LeverageInOrder(a: int, cross: bool, leverage: int)
    ensures InWireOrder(LeverageAction(a, cross, leverage))
  {
    var f4 := Field(KLeverage, Num(leverage), NoFields);
    var f3 := Field(KIsCross, Bool(cross), f4);
    NamesMore(KLeverage, Num(leverage), NoFields);
    NamesMore(KIsCross, Bool(cross), f4);
    NamesMore(KAsset, Num(a), f3);
    NamesMore(KType, Str("updateLeverage"), Field(KAsset, Num(a), f3));
  }

  /* ---- accepted actions are built ones ------------------------------------------------------- */

  function Text(v: Js): string {
    if v.Str? then v.s else ""
  }

  function Number(v: Js): int {
    if v.Num? then v.n else 0
  }

  predicate Flag(v: Js) {
    v == Bool(true)
  }

  function SideOf(order: Js): string {
    if Flag(At(order, KB)) then "buy" else "sell"
  }

  function LimitIntent(order: Js): Intent {
    LimitOrder(Number(At(order, KA)), SideOf(order), Text(At(order, KS)), Text(At(order, KP)),
               Text(At(At(At(order, KT), KLimit), KTif)), At(order, KR), Text(At(order, KC)))
  }

  /** The position's size is not on the wire; any size would do. */
  function TpslIntent(order: Js, existing: Option<int>): Intent {
    var trigger := At(At(order, KT), KTrigger);
    PositionTpsl(Number(At(order, KA)), SideOf(order), "1", Text(At(trigger, KTriggerPx)), Text(At(order, KP)),
                 TriggerKind(At(trigger, KTpsl)), existing, Text(At(order, KC)))
  }

  function CancelOfItem(v: Js, byOid: bool): CancelOf {
    if byOid then CancelOf(Number(At(v, KA)), OidTarget(Number(At(v, KO))))
    else CancelOf(Number(At(v, KAsset)), CloidTarget(Text(At(v, KCloid))))
  }

  function CancelsOf(items: Items, byOid: bool): seq<CancelOf> {
    if items.NoItems? then [] else [CancelOfItem(items.head, byOid)] + CancelsOf(items.tail, byOid)
  }

  function CancelIntent(v: Js, byOid: bool): Intent {
    BulkCancel(if v.List? then CancelsOf(v.items, byOid) else [])
  }

  /** The intent an action asks for, read by property name whatever their order. */
  function IntentOf(raw: Js): Intent {
    var kind := At(raw, KType);
    if kind == Str("order") then
      if At(raw, KGrouping) == Str("na") then LimitIntent(OneOrder(raw)) else TpslIntent(OneOrder(raw), None)
    else if kind == Str("modify") then TpslIntent(At(raw, KOrder), Some(Number(At(raw, KOid))))
    else if kind == Str("cancel") then CancelIntent(At(raw, KCancels), true)
    else if kind == Str("cancelByCloid") then CancelIntent(At(raw, KCancels), false)
    else UpdateLeverage(Number(At(raw, KAsset)), if Flag(At(raw, KIsCross)) then "cross" else "isolated", Number(At(raw, KLeverage)))
  }

  lemma LimitWireIs(order: Js)
    requires CanonicalLimit(order).Some?
    ensures OrderWire(Number(At(order, KA)), SideOf(order), Text(At(order, KP)), Text(At(order, KS)), At(order, KR),
                      Text(At(At(At(order, KT), KLimit), KTif)), Text(At(order, KC))) == CanonicalLimit(order)
  {
  }

  lemma LimitIsBuilt(order: Js)
    requires CanonicalLimit(order).Some?
    ensures Build(LimitIntent(order)) == Single(CanonicalLimit(order), "na")
  {
    LimitWireIs(order);
  }

  lemma ZeroSize(s: string)
    requires Decimals.Canonical(s) && ZeroText(s)
    ensures s == "0"
  {
  }

  lemma OneIsPositive()
    ensures PositiveText("1")
  {
    assert Decimals.Dot("1") == 1 && "1"[..1] == "1";
  }

  lemma TriggerIsBuilt(order: Js)
    requires CanonicalTrigger(order).Some?
    ensures var trigger := At(At(order, KT), KTrigger);
      TriggerWire(Number(At(order, KA)), SideOf(order), "1", Text(At(trigger, KTriggerPx)), Text(At(order, KP)),
                  TriggerKind(At(trigger, KTpsl)), Text(At(order, KC))) == CanonicalTrigger(order)
  {
    ZeroSize(Get(order.fields, KS).s);
    OneIsPositive();
  }

  lemma TpslMade(a: int, side: string, size: string, trigger: string, price: string, kind: string, existing: Option<int>, cloid: string)
    requires TriggerWire(a, side, size, trigger, price, kind, cloid).Some? && (existing.Some? ==> Safe(existing.value))
    ensures Build(PositionTpsl(a, side, size, trigger, price, kind, existing, cloid))
      == Some(TpslAction(TriggerWire(a, side, size, trigger, price, kind, cloid).value, existing))
  {
  }

  function TriggerKind(tpsl: Js): string {
    if tpsl == Str("tp") then "take_profit" else "stop_loss"
  }

  lemma TpslIntentIsBuilt(order: Js, existing: Option<int>)
    requires CanonicalTrigger(order).Some? && (existing.Some? ==> Safe(existing.value))
    ensures Build(TpslIntent(order, existing)) == Some(TpslAction(CanonicalTrigger(order).value, existing))
  {
    TriggerIsBuilt(order);
    var trigger := At(At(order, KT), KTrigger);
    TpslMade(Number(At(order, KA)), SideOf(order), "1", Text(At(trigger, KTriggerPx)), Text(At(order, KP)),
             TriggerKind(At(trigger, KTpsl)), existing, Text(At(order, KC)));
  }

  lemma {:induction false} CancelsAreBuilt(items: Items, byOid: bool)
    requires CanonicalCancels(items, byOid).Some?
    ensures CancelWires(CancelsOf(items, byOid), byOid) == CanonicalCancels(items, byOid)
    ensures |CancelsOf(items, byOid)| == Length(items)
    ensures forall i :: 0 <= i < |CancelsOf(items, byOid)| ==> CancelsOf(items, byOid)[i].target.OidTarget? == byOid
  {
    if items.Item? { CancelsAreBuilt(items.tail, byOid); }
  }

  lemma BulkIsBuilt(items: Items, byOid: bool)
    requires CanonicalCancels(items, byOid).Some? && 1 <= Length(items) <= 100
    ensures BuildCancels(CancelsOf(items, byOid)) == Some(CancelAction(if byOid then "cancel" else "cancelByCloid", CanonicalCancels(items, byOid).value))
  {
    CancelsAreBuilt(items, byOid);
    assert CancelsOf(items, byOid)[0].target.OidTarget? == byOid;
  }

  lemma CancelActionIsBuilt(f: Fields, byOid: bool)
    requires CanonicalCancelAction(f, byOid).Some?
    ensures Build(CancelIntent(Get(f, KCancels), byOid)) == CanonicalCancelAction(f, byOid)
  {
    BulkIsBuilt(Get(f, KCancels).items, byOid);
  }

  lemma LeverageIsBuilt(f: Fields)
    requires CanonicalLeverageAction(f).Some?
    ensures Build(UpdateLeverage(Number(Get(f, KAsset)), if Flag(Get(f, KIsCross)) then "cross" else "isolated", Number(Get(f, KLeverage))))
      == CanonicalLeverageAction(f)
  {
  }

  lemma AcceptedOrder(f: Fields)
    requires CanonicalOrderAction(f).Some?
    ensures Get(f, KOrders).List? && Get(f, KOrders).items.Item? && OneOrder(Record(f)) == Get(f, KOrders).items.head
    ensures Get(f, KGrouping).Str?
    ensures if Get(f, KGrouping) == Str("na")
      then CanonicalOrderAction(f) == Single(CanonicalLimit(OneOrder(Record(f))), "na")
      else CanonicalOrderAction(f) == Single(CanonicalTrigger(OneOrder(Record(f))), "positionTpsl")
  {
  }

  lemma OrderActionIsBuilt(f: Fields)
    requires CanonicalOrderAction(f).Some?
    ensures Build(if Get(f, KGrouping) == Str("na") then LimitIntent(OneOrder(Record(f))) else TpslIntent(OneOrder(Record(f)), None))
      == CanonicalOrderAction(f)
  {
    AcceptedOrder(f);
    var order := OneOrder(Record(f));
    if Get(f, KGrouping) == Str("na") { LimitIsBuilt(order); } else { TpslIntentIsBuilt(order, None); }
  }

  lemma ModifyActionIsBuilt(f: Fields)
    requires CanonicalModifyAction(f).Some?
    ensures Build(TpslIntent(Get(f, KOrder), Some(Number(Get(f, KOid))))) == CanonicalModifyAction(f)
    ensures Number(Get(f, KOid)) > 0
  {
    TpslIntentIsBuilt(Get(f, KOrder), Some(Number(Get(f, KOid))));
  }

  /** The canonical form of an accepted action, whatever the order of its properties, is what the builders make of the intent it states. */
  lemma AcceptedIsBuilt(raw: Js)
    requires Canonicalize(raw).Some?
    ensures Build(IntentOf(raw)) == Canonicalize(raw)
    ensures !(IntentOf(raw).PositionTpsl? && IntentOf(raw).existingOid == Some(0))
  {
    KindsDiffer();
    var f, kind := raw.fields, Get(raw.fields, KType).s;
    if kind == "order" {
      OrderActionIsBuilt(f);
    } else if kind == "modify" {
      ModifyActionIsBuilt(f);
    } else if kind == "cancel" {
      CancelActionIsBuilt(f, true);
    } else if kind == "cancelByCloid" {
      CancelActionIsBuilt(f, false);
    } else {
      LeverageIsBuilt(f);
    }
  }

  /** Accepted actions come out in wire order too. */
  lemma AcceptedInWireOrder(raw: Js)
    requires Canonicalize(raw).Some?
    ensures InWireOrder(Canonicalize(raw).value)
  {
    AcceptedIsBuilt(raw);
    BuiltInWireOrder(IntentOf(raw));
  }

  /** So the canonical actions are exactly the built ones, but for modifications of order 0. */
  lemma CanonicalAreBuilt(action: Js)
    ensures Canonicalize(action) == Some(action) <==>
      exists intent: Intent :: Build(intent) == Some(action) && !(intent.PositionTpsl? && intent.existingOid == Some(0))
  {
    if Canonicalize(action) == Some(action) { AcceptedIsBuilt(action); }
    forall intent: Intent | Build(intent) == Some(action) && !(intent.PositionTpsl? && intent.existingOid == Some(0))
      ensures Canonicalize(action) == Some(action)
    {
      BuiltIsCanonical(intent);
    }
  }
}
