/** The hash preimage determines the action and everything framed with it. */
module PreimageTheorems {
  import opened Base
  import opened Codec
  import opened MessagePack
  import Decimals
  import CodecTheorems

  /* ---- numbers and headers ----------------------------------------------------------- */

  lemma {:induction false} BigEndianRead(n: nat, k: nat)
    requires n < Pow256(k)
    ensures FromBigEndian(BigEndian(n, k)) == n
  {
    if k > 0 {
      BigEndianRead(n / 256, k - 1);
      assert BigEndian(n, k)[..k - 1] == BigEndian(n / 256, k - 1);
    }
  }

  lemma Powers()
    ensures Pow256(1) == 0x100 && Pow256(2) == 0x1_0000 && Pow256(4) == 0x1_0000_0000 && Pow256(8) > MAX_SAFE
  {
    assert Pow256(3) == 0x100_0000 && Pow256(5) == 0x100_0000_0000 && Pow256(6) == 0x1_0000_0000_0000;
    assert Pow256(7) == 0x100_0000_0000_0000;
  }

  /** A format byte followed by a length or number of `k` bytes. */
  lemma WideRead(format: int, n: nat, k: nat, rest: Bytes)
    requires 0xc4 <= format && k == LengthBytes(format) && k > 0 && n < Pow256(k)
    ensures DecodeHead([format] + BigEndian(n, k) + rest) ==
      Some(Read(if format < 0xd0 then NumHead(n) else if format < 0xdc then StrHead(n) else if format < 0xde then ListHead(n) else MapHead(n), rest))
  {
    BigEndianRead(n, k);
    var t := [format] + BigEndian(n, k) + rest;
    assert t[1..k + 1] == BigEndian(n, k) && t[k + 1..] == rest;
  }

  lemma OneByte(n: nat)
    requires n < 0x100
    ensures BigEndian(n, 1) == [n]
  {
    assert BigEndian(n / 256, 0) == [];
  }

  /** A header in one byte. */
  lemma NarrowRead(format: int, rest: Bytes)
    requires 0 <= format < 0xc4 && format != 0xc0 && format != 0xc1
    ensures DecodeHead([format] + rest) == Some(Read(
      if format < 0x80 then NumHead(format) else if format < 0x90 then MapHead(format - 0x80)
      else if format < 0xa0 then ListHead(format - 0x90) else if format < 0xc0 then StrHead(format - 0xa0)
      else BoolHead(format == 0xc3), rest))
  {
    assert ([format] + rest)[1..] == rest;
  }

  lemma NumberHeadRead(n: nat, rest: Bytes)
    requires n <= MAX_SAFE
    ensures DecodeHead(EncodeHead(NumHead(n)) + rest) == Some(Read(NumHead(n), rest))
  {
    Powers();
    if n < 0x80 {
      NarrowRead(n, rest);
    } else if n < 0x100 {
      OneByte(n);
      WideRead(0xcc, n, 1, rest);
      assert [0xcc, n] == [0xcc] + [n];
    } else if n < 0x1_0000 {
      WideRead(0xcd, n, 2, rest);
    } else if n < 0x1_0000_0000 {
      WideRead(0xce, n, 4, rest);
    } else {
      WideRead(0xcf, n, 8, rest);
    }
  }

  lemma TextHeadRead(n: nat, rest: Bytes)
    requires n < 0x1_0000_0000
    ensures DecodeHead(EncodeHead(StrHead(n)) + rest) == Some(Read(StrHead(n), rest))
  {
    Powers();
    if n < 32 {
      NarrowRead(0xa0 + n, rest);
    } else if n < 0x100 {
      OneByte(n);
      WideRead(0xd9, n, 1, rest);
      assert [0xd9, n] == [0xd9] + [n];
    } else if n < 0x1_0000 {
      WideRead(0xda, n, 2, rest);
    } else {
      WideRead(0xdb, n, 4, rest);
    }
  }

  lemma ListHeadRead(n: nat, rest: Bytes)
    requires n < 0x1_0000_0000
    ensures DecodeHead(EncodeHead(ListHead(n)) + rest) == Some(Read(ListHead(n), rest))
  {
    Powers();
    if n < 16 {
      NarrowRead(0x90 + n, rest);
    } else if n < 0x1_0000 {
      WideRead(0xdc, n, 2, rest);
    } else {
      WideRead(0xdd, n, 4, rest);
    }
  }

  lemma MapHeadRead(n: nat, rest: Bytes)
    requires n < 0x1_0000_0000
    ensures DecodeHead(EncodeHead(MapHead(n)) + rest) == Some(Read(MapHead(n), rest))
  {
    Powers();
    if n < 16 {
      NarrowRead(0x80 + n, rest);
    } else if n < 0x1_0000 {
      WideRead(0xde, n, 2, rest);
    } else {
      WideRead(0xdf, n, 4, rest);
    }
  }

  /** The decoder undoes the header encoding, whatever follows. */
  lemma HeadRead(h: Head, rest: Bytes)
    requires HeadFits(h)
    ensures DecodeHead(EncodeHead(h) + rest) == Some(Read(h, rest))
  {
    match h
    case BoolHead(b) => NarrowRead(if b then 0xc3 else 0xc2, rest);
    case NumHead(n) => NumberHeadRead(n, rest);
    case StrHead(n) => TextHeadRead(n, rest);
    case ListHead(n) => ListHeadRead(n, rest);
    case MapHead(n) => MapHeadRead(n, rest);
  }

  lemma HeadUnique(g: Head, r: Bytes, h: Head, s: Bytes)
    requires HeadFits(g) && HeadFits(h) && EncodeHead(g) + r == EncodeHead(h) + s
    ensures g == h && r == s
  {
    HeadRead(g, r);
    HeadRead(h, s);
  }

  /* ---- texts and keys -------------------------------------------------------------------- */

  lemma TextBytesUnique(a: string, r: Bytes, b: string, s: Bytes)
    requires |a| == |b| && TextBytes(a) + r == TextBytes(b) + s
    ensures a == b && r == s
  {
    var x, y := TextBytes(a) + r, TextBytes(b) + s;
    forall i | 0 <= i < |a|
      ensures a[i] == b[i]
    {
      assert x[i] == a[i] as int && y[i] == b[i] as int;
    }
    assert x[|a|..] == r && y[|b|..] == s;
  }

  lemma TextUnique(a: string, r: Bytes, b: string, s: Bytes)
    requires |a| < 0x1_0000_0000 && |b| < 0x1_0000_0000 && EncodeText(a) + r == EncodeText(b) + s
    ensures a == b && r == s
  {
    Associates(EncodeHead(StrHead(|a|)), TextBytes(a), r);
    Associates(EncodeHead(StrHead(|b|)), TextBytes(b), s);
    HeadUnique(StrHead(|a|), TextBytes(a) + r, StrHead(|b|), TextBytes(b) + s);
    TextBytesUnique(a, r, b, s);
  }

  lemma Associates(a: Bytes, b: Bytes, c: Bytes)
    ensures (a + b) + c == a + (b + c)
  {
  }

  /** Length, first and last character tell the known property names apart. */
  function KeyNamed(length: int, first: char, last: char): Key {
    if length == 1 then (if first == 'a' then KA else if first == 'b' then KB else if first == 'p' then KP else if first == 's' then KS else if first == 'r' then KR else if first == 't' then KT else if first == 'c' then KC else KO)
    else if length == 3 then (if first == 'o' then KOid else KTif)
    else if length == 4 then (if last == 'e' then KType else KTpsl)
    else if length == 5 then (if first == 'o' then KOrder else if first == 'a' then KAsset else if first == 'c' then KCloid else KLimit)
    else if length == 6 then KOrders
    else if length == 7 then (if first == 'c' then KCancels else if first == 'i' then KIsCross else KTrigger)
    else if length == 8 then (if first == 'g' then KGrouping else if first == 'l' then KLeverage else KIsMarket)
    else if length == 9 then KTriggerPx
    else KType
  }

  lemma NameTells(k: Key)
    requires !k.Foreign?
    ensures var n := NameOf(k);
      1 <= |n| <= 9 && KeyNamed(|n|, n[0], n[|n| - 1]) == k
  {
  }

  lemma NameUnique(k: Key, l: Key)
    requires !k.Foreign? && !l.Foreign? && NameOf(k) == NameOf(l)
    ensures k == l
  {
    NameTells(k);
    NameTells(l);
  }

  /* ---- values ---------------------------------------------------------------------------------- */

  function HeadOf(v: Js): Head
    requires Encodable(v)
  {
    match v
    case Bool(b) => BoolHead(b)
    case Num(n) => NumHead(n)
    case Str(s) => StrHead(|s|)
    case List(items) => ListHead(Length(items))
    case Record(fields) => MapHead(Count(fields))
  }

  function BodyOf(v: Js): Bytes
    requires Encodable(v)
  {
    match v
    case Bool(_) => []
    case Num(_) => []
    case Str(s) => TextBytes(s)
    case List(items) => EncodeItems(items)
    case Record(fields) => EncodeFields(fields)
  }

  lemma EncodeSplits(v: Js, r: Bytes)
    requires Encodable(v)
    ensures HeadFits(HeadOf(v)) && Encode(v) + r == EncodeHead(HeadOf(v)) + (BodyOf(v) + r)
  {
    assert Encode(v) == EncodeHead(HeadOf(v)) + BodyOf(v);
    Associates(EncodeHead(HeadOf(v)), BodyOf(v), r);
  }

  /** The encoding is self-delimiting: it determines the value and where it ends. */
  lemma {:induction false} EncodeUnique(v: Js, r: Bytes, w: Js, s: Bytes)
    requires Encodable(v) && Encodable(w) && Encode(v) + r == Encode(w) + s
    ensures v == w && r == s
    decreases v
  {
    EncodeSplits(v, r);
    EncodeSplits(w, s);
    HeadUnique(HeadOf(v), BodyOf(v) + r, HeadOf(w), BodyOf(w) + s);
    BodyUnique(v, r, w, s);
  }

  lemma {:induction false} BodyUnique(v: Js, r: Bytes, w: Js, s: Bytes)
    requires Encodable(v) && Encodable(w) && HeadOf(v) == HeadOf(w) && BodyOf(v) + r == BodyOf(w) + s
    ensures v == w && r == s
    decreases v, 0
  {
    match v
    case Bool(_) =>
      assert [] + r == r && [] + s == s;
    case Num(_) =>
      assert [] + r == r && [] + s == s;
    case Str(a) => TextBytesUnique(a, r, w.s, s);
    case List(items) => ItemsUnique(items, r, w.items, s);
    case Record(fields) => FieldsUnique(fields, r, w.fields, s);
  }

  lemma {:induction false} ItemsUnique(a: Items, r: Bytes, b: Items, s: Bytes)
    requires EncodableItems(a) && EncodableItems(b) && Length(a) == Length(b) && EncodeItems(a) + r == EncodeItems(b) + s
    ensures a == b && r == s
    decreases a
  {
    if a.NoItems? {
      assert [] + r == r && [] + s == s;
    } else {
      Associates(Encode(a.head), EncodeItems(a.tail), r);
      Associates(Encode(b.head), EncodeItems(b.tail), s);
      EncodeUnique(a.head, EncodeItems(a.tail) + r, b.head, EncodeItems(b.tail) + s);
      ItemsUnique(a.tail, r, b.tail, s);
    }
  }

  lemma FieldSplits(f: Fields, r: Bytes)
    requires EncodableFields(f) && f.Field?
    ensures EncodeFields(f) + r == EncodeText(NameOf(f.key)) + (Encode(f.value) + (EncodeFields(f.rest) + r))
  {
    Associates(EncodeText(NameOf(f.key)), Encode(f.value) + EncodeFields(f.rest), r);
    Associates(Encode(f.value), EncodeFields(f.rest), r);
  }

  lemma {:induction false} FieldsUnique(a: Fields, r: Bytes, b: Fields, s: Bytes)
    requires EncodableFields(a) && EncodableFields(b) && Count(a) == Count(b) && EncodeFields(a) + r == EncodeFields(b) + s
    ensures a == b && r == s
    decreases a
  {
    if a.NoFields? {
      assert [] + r == r && [] + s == s;
    } else {
      FieldSplits(a, r);
      FieldSplits(b, s);
      NameTells(a.key);
      NameTells(b.key);
      TextUnique(NameOf(a.key), Encode(a.value) + (EncodeFields(a.rest) + r), NameOf(b.key), Encode(b.value) + (EncodeFields(b.rest) + s));
      EncodeUnique(a.value, EncodeFields(a.rest) + r, b.value, EncodeFields(b.rest) + s);
      FieldsUnique(a.rest, r, b.rest, s);
      NameUnique(a.key, b.key);
    }
  }

  /* ---- the preimage ------------------------------------------------------------------------------ */

  lemma Uint64Unique(m: nat, r: Bytes, n: nat, s: Bytes)
    requires m <= MAX_SAFE && n <= MAX_SAFE && BigEndian(m, 8) + r == BigEndian(n, 8) + s
    ensures m == n && r == s
  {
    Powers();
    BigEndianRead(m, 8);
    BigEndianRead(n, 8);
    var x, y := BigEndian(m, 8) + r, BigEndian(n, 8) + s;
    assert x[..8] == BigEndian(m, 8) && y[..8] == BigEndian(n, 8);
    assert x[8..] == r && y[8..] == s;
  }

  lemma HexUnique(c: char, d: char)
    requires HexChar(c) && HexChar(d) && HexValue(c) == HexValue(d)
    ensures LowerChar(c) == LowerChar(d)
  {
  }

  lemma HexRange(c: char)
    requires HexChar(c)
    ensures 0 <= HexValue(c) < 16
  {
  }

  /** Addresses of the same bytes differ in letter case at most. */
  lemma AddressUnique(a: string, b: string)
    requires HexText(a, 40) && HexText(b, 40) && AddressBytes(a) == AddressBytes(b)
    ensures Lower(a) == Lower(b)
  {
    forall i | 0 <= i < 42
      ensures LowerChar(a[i]) == LowerChar(b[i])
    {
      if i >= 2 {
        var k := (i - 2) / 2;
        assert AddressBytes(a)[k] == AddressBytes(b)[k];
        HexRange(a[2 + 2 * k]);
        HexRange(a[3 + 2 * k]);
        HexRange(b[2 + 2 * k]);
        HexRange(b[3 + 2 * k]);
        HexUnique(a[2 + 2 * k], b[2 + 2 * k]);
        HexUnique(a[3 + 2 * k], b[3 + 2 * k]);
        assert i == 2 + 2 * k || i == 3 + 2 * k;
      }
    }
  }

  /** The address in one letter case; its checksum form is a function of this. */
  function NormalVault(vault: Option<string>): Option<string> {
    if vault.Some? then Some(Lower(vault.value)) else None
  }

  lemma VaultUnique(a: Option<string>, r: Bytes, b: Option<string>, s: Bytes)
    requires (a.Some? ==> HexText(a.value, 40)) && (b.Some? ==> HexText(b.value, 40)) && VaultBytes(a) + r == VaultBytes(b) + s
    ensures NormalVault(a) == NormalVault(b) && r == s
  {
    var x, y := VaultBytes(a) + r, VaultBytes(b) + s;
    assert x[0] == y[0];
    assert a.Some? <==> b.Some?;
    assert x[|VaultBytes(a)|..] == r && y[|VaultBytes(b)|..] == s;
    if a.Some? {
      assert x[1..21] == AddressBytes(a.value) && y[1..21] == AddressBytes(b.value);
      AddressUnique(a.value, b.value);
    }
  }

  lemma ExpiryUnique(a: Option<int>, b: Option<int>)
    requires (a.Some? ==> Safe(a.value)) && (b.Some? ==> Safe(b.value)) && ExpiryBytes(a) == ExpiryBytes(b)
    ensures a == b
  {
    assert |ExpiryBytes(a)| == |ExpiryBytes(b)|;
    if a.Some? {
      assert ExpiryBytes(a)[1..] == BigEndian(a.value, 8) && ExpiryBytes(b)[1..] == BigEndian(b.value, 8);
      assert BigEndian(a.value, 8) + [] == BigEndian(a.value, 8) && BigEndian(b.value, 8) + [] == BigEndian(b.value, 8);
      Uint64Unique(a.value, [], b.value, []);
    }
  }

  /** The preimage determines the canonical action, the nonce, the vault and the expiry, and nothing else enters it. */
  lemma PreimageDetermines(x: Input, y: Input)
    requires Accepted(x) && Accepted(y)
    ensures Preimage(x) == Preimage(y) ==>
      && Canonicalize(x.action) == Canonicalize(y.action)
      && x.nonce == y.nonce
      && NormalVault(x.vault) == NormalVault(y.vault)
      && x.expiresAfter == y.expiresAfter
  {
    if Preimage(x) == Preimage(y) {
      var v, w := Canonicalize(x.action).value, Canonicalize(y.action).value;
      var x1, y1 := VaultBytes(x.vault) + ExpiryBytes(x.expiresAfter), VaultBytes(y.vault) + ExpiryBytes(y.expiresAfter);
      EncodeUnique(v, BigEndian(x.nonce, 8) + x1, w, BigEndian(y.nonce, 8) + y1);
      Uint64Unique(x.nonce, x1, y.nonce, y1);
      VaultUnique(x.vault, ExpiryBytes(x.expiresAfter), y.vault, ExpiryBytes(y.expiresAfter));
      ExpiryUnique(x.expiresAfter, y.expiresAfter);
    }
  }

  lemma LowerAddress(a: string, b: string)
    requires HexText(a, 40) && HexText(b, 40) && Lower(a) == Lower(b)
    ensures AddressBytes(a) == AddressBytes(b)
  {
    forall i | 0 <= i < 42
      ensures i >= 2 ==> HexValue(a[i]) == HexValue(b[i])
    {
      assert Lower(a)[i] == LowerChar(a[i]) && Lower(b)[i] == LowerChar(b[i]);
    }
  }

  lemma PreimageDependsOnly(x: Input, y: Input)
    requires Accepted(x) && Accepted(y)
    requires Canonicalize(x.action) == Canonicalize(y.action) && x.nonce == y.nonce
    requires NormalVault(x.vault) == NormalVault(y.vault) && x.expiresAfter == y.expiresAfter
    ensures Preimage(x) == Preimage(y)
  {
    if x.vault.Some? { LowerAddress(x.vault.value, y.vault.value); }
  }

  /* ---- which canonical actions are encoded ---------------------------------------------------------- */

  lemma DecimalIsAscii(s: string)
    requires Decimals.UnsignedDecimal(s) && |s| < 0x1_0000_0000
    ensures AsciiText(s)
  {
    var d := Decimals.Dot(s);
    forall i | 0 <= i < |s|
      ensures s[i] as int < 0x80
    {
      if i < d {
        assert s[i] == Decimals.IntegerPart(s)[i];
      } else if i > d {
        assert s[i] == Decimals.FractionPart(s)[i - d - 1];
      }
    }
  }

  lemma HexIsAscii(s: string, n: nat)
    requires HexText(s, n) && n < 100
    ensures AsciiText(s)
  {
  }

  lemma MoreFields(k: Key, v: Js, rest: Fields)
    requires !k.Foreign? && Encodable(v) && EncodableFields(rest)
    ensures EncodableFields(Field(k, v, rest)) && Count(Field(k, v, rest)) == 1 + Count(rest)
  {
  }

  lemma Record1(k: Key, v: Js)
    requires !k.Foreign? && Encodable(v)
    ensures EncodableFields(Field(k, v, NoFields)) && Count(Field(k, v, NoFields)) == 1
  {
    MoreFields(k, v, NoFields);
  }

  lemma OrderEncodable(a: int, b: bool, p: string, s: string, r: bool, t: Js, c: string)
    requires Safe(a) && AsciiText(p) && AsciiText(s) && Encodable(t) && AsciiText(c)
    ensures Encodable(OrderFields(a, b, p, s, r, t, c))
  {
    var f7 := Field(KC, Str(c), NoFields);
    var f6 := Field(KT, t, f7);
    var f5 := Field(KR, Bool(r), f6);
    var f4 := Field(KS, Str(s), f5);
    var f3 := Field(KP, Str(p), f4);
    var f2 := Field(KB, Bool(b), f3);
    Record1(KC, Str(c));
    MoreFields(KT, t, f7);
    MoreFields(KR, Bool(r), f6);
    MoreFields(KS, Str(s), f5);
    MoreFields(KP, Str(p), f4);
    MoreFields(KB, Bool(b), f3);
    MoreFields(KA, Num(a), f2);
  }

  lemma TypesEncodable(tif: string, px: string, tpsl: string)
    requires AsciiText(tif) && AsciiText(px) && AsciiText(tpsl)
    ensures Encodable(LimitType(tif)) && Encodable(TriggerType(px, tpsl))
  {
    Record1(KTif, Str(tif));
    Record1(KLimit, Record(Field(KTif, Str(tif), NoFields)));
    var f3 := Field(KTpsl, Str(tpsl), NoFields);
    var f2 := Field(KTriggerPx, Str(px), f3);
    Record1(KTpsl, Str(tpsl));
    MoreFields(KTriggerPx, Str(px), f3);
    MoreFields(KIsMarket, Bool(true), f2);
    Record1(KTrigger, Record(Field(KIsMarket, Bool(true), f2)));
  }

  lemma ActionEncodable(kind: string, k: Key, v: Js, l: Key, w: Js)
    requires AsciiText(kind) && !k.Foreign? && !l.Foreign? && Encodable(v) && Encodable(w)
    ensures Encodable(Record(Field(KType, Str(kind), Field(k, v, Field(l, w, NoFields)))))
    ensures Encodable(Record(Field(KType, Str(kind), Field(k, v, NoFields))))
  {
    Record1(l, w);
    Record1(k, v);
    MoreFields(k, v, Field(l, w, NoFields));
    MoreFields(KType, Str(kind), Field(k, v, Field(l, w, NoFields)));
    MoreFields(KType, Str(kind), Field(k, v, NoFields));
  }

  lemma OrderWireEncodable(a: int, side: string, price: string, size: string, reduceOnly: Js, tif: string, cloid: string)
    requires OrderWire(a, side, price, size, reduceOnly, tif, cloid).Some?
    requires |price| < 0x1_0000_0000 && |size| < 0x1_0000_0000
    ensures Encodable(OrderWire(a, side, price, size, reduceOnly, tif, cloid).value)
  {
    DecimalIsAscii(price);
    DecimalIsAscii(size);
    CodecTheorems.LowerHex(cloid, 32);
    HexIsAscii(Lower(cloid), 32);
    TypesEncodable(tif, "", "");
    OrderEncodable(a, side == "buy", price, size, reduceOnly.b, LimitType(tif), Lower(cloid));
  }

  lemma TriggerWireEncodable(a: int, side: string, size: string, trigger: string, price: string, kind: string, cloid: string)
    requires TriggerWire(a, side, size, trigger, price, kind, cloid).Some?
    requires |price| < 0x1_0000_0000 && |trigger| < 0x1_0000_0000
    ensures Encodable(TriggerWire(a, side, size, trigger, price, kind, cloid).value)
  {
    DecimalIsAscii(price);
    DecimalIsAscii(trigger);
    CodecTheorems.LowerHex(cloid, 32);
    HexIsAscii(Lower(cloid), 32);
    var tpsl := if kind == "take_profit" then "tp" else "sl";
    TypesEncodable("", trigger, tpsl);
    OrderEncodable(a, side == "buy", price, "0", true, TriggerType(trigger, tpsl), Lower(cloid));
  }

  lemma OrderActionEncodable(order: Js, grouping: string)
    requires Encodable(order) && AsciiText(grouping)
    ensures Encodable(OrderAction(order, grouping))
  {
    assert EncodableItems(NoItems) && EncodableItems(Item(order, NoItems)) && Length(Item(order, NoItems)) == 1 + Length(NoItems);
    ActionEncodable("order", KOrders, List(Item(order, NoItems)), KGrouping, Str(grouping));
  }

  lemma {:induction false} CancelsEncodable(cancels: seq<CancelOf>, byOid: bool)
    requires CancelWires(cancels, byOid).Some?
    ensures EncodableItems(CancelWires(cancels, byOid).value)
    ensures Length(CancelWires(cancels, byOid).value) == |cancels|
  {
    if cancels != [] {
      CancelsEncodable(cancels[1..], byOid);
      CancelEncodable(cancels[0], byOid);
    }
  }

  lemma CancelEncodable(c: CancelOf, byOid: bool)
    requires CancelWire(c, byOid).Some?
    ensures Encodable(CancelWire(c, byOid).value)
  {
    if byOid {
      Record1(KO, Num(c.target.oid));
      MoreFields(KA, Num(c.assetId), Field(KO, Num(c.target.oid), NoFields));
    } else {
      CodecTheorems.LowerHex(c.target.cloid, 32);
      HexIsAscii(Lower(c.target.cloid), 32);
      Record1(KCloid, Str(Lower(c.target.cloid)));
      MoreFields(KAsset, Num(c.assetId), Field(KCloid, Str(Lower(c.target.cloid)), NoFields));
    }
  }

  /** The decimals of the intent fit a MessagePack text. */
  predicate ShortTexts(intent: Intent) {
    match intent
    case MarketOrder(_, _, size, price, _) => |size| < 0x1_0000_0000 && |price| < 0x1_0000_0000
    case LimitOrder(_, _, size, price, _, _, _) => |size| < 0x1_0000_0000 && |price| < 0x1_0000_0000
    case ReduceOnlyClose(_, _, size, price, _) => |size| < 0x1_0000_0000 && |price| < 0x1_0000_0000
    case PositionTpsl(_, _, _, trigger, price, _, _, _) => |trigger| < 0x1_0000_0000 && |price| < 0x1_0000_0000
    case _ => true
  }

  lemma LimitEncodable(a: int, side: string, price: string, size: string, reduceOnly: Js, tif: string, cloid: string)
    requires OrderWire(a, side, price, size, reduceOnly, tif, cloid).Some?
    requires |price| < 0x1_0000_0000 && |size| < 0x1_0000_0000
    ensures Encodable(Single(OrderWire(a, side, price, size, reduceOnly, tif, cloid), "na").value)
  {
    OrderWireEncodable(a, side, price, size, reduceOnly, tif, cloid);
    OrderActionEncodable(OrderWire(a, side, price, size, reduceOnly, tif, cloid).value, "na");
  }

  lemma TpslEncodable(intent: Intent)
    requires intent.PositionTpsl? && Build(intent).Some? && ShortTexts(intent)
    ensures Encodable(Build(intent).value)
  {
    TriggerWireEncodable(intent.assetId, intent.side, intent.size, intent.triggerPrice, intent.price, intent.triggerKind, intent.cloid);
    var order := TriggerWire(intent.assetId, intent.side, intent.size, intent.triggerPrice, intent.price, intent.triggerKind, intent.cloid).value;
    if intent.existingOid.None? {
      GroupedEncodable(order);
    } else {
      ModifyEncodable(intent.existingOid.value, order);
    }
  }

  lemma GroupedEncodable(order: Js)
    requires Encodable(order)
    ensures Encodable(OrderAction(order, "positionTpsl"))
  {
    OrderActionEncodable(order, "positionTpsl");
  }

  lemma ModifyEncodable(oid: int, order: Js)
    requires Safe(oid) && Encodable(order)
    ensures Encodable(ModifyAction(oid, order))
  {
    ActionEncodable("modify", KOid, Num(oid), KOrder, order);
  }

  lemma LeverageEncodable(a: int, cross: bool, leverage: int)
    requires Safe(a) && Safe(leverage)
    ensures Encodable(LeverageAction(a, cross, leverage))
  {
    var f4 := Field(KLeverage, Num(leverage), NoFields);
    var f3 := Field(KIsCross, Bool(cross), f4);
    Record1(KLeverage, Num(leverage));
    MoreFields(KIsCross, Bool(cross), f4);
    MoreFields(KAsset, Num(a), f3);
    MoreFields(KType, Str("updateLeverage"), Field(KAsset, Num(a), f3));
  }

  /** Every built action whose decimals fit is encoded. */
  lemma BuiltIsEncodable(intent: Intent)
    requires Build(intent).Some? && ShortTexts(intent)
    ensures Encodable(Build(intent).value)
  {
    match intent
    case MarketOrder(a, side, size, price, cloid) => LimitEncodable(a, side, price, size, Bool(false), "Ioc", cloid);
    case LimitOrder(a, side, size, price, tif, reduceOnly, cloid) => LimitEncodable(a, side, price, size, reduceOnly, tif, cloid);
    case ReduceOnlyClose(a, side, size, price, cloid) => LimitEncodable(a, side, price, size, Bool(true), "Ioc", cloid);
    case PositionTpsl(_, _, _, _, _, _, _, _) => TpslEncodable(intent);
    case Cancel(one) => BuiltCancelsEncodable([one]);
    case BulkCancel(cancels) => BuiltCancelsEncodable(cancels);
    case UpdateLeverage(a, mode, leverage) => LeverageEncodable(a, mode == "cross", leverage);
  }

  lemma BuiltCancelsEncodable(cancels: seq<CancelOf>)
    requires BuildCancels(cancels).Some?
    ensures Encodable(BuildCancels(cancels).value)
  {
    var byOid := cancels[0].target.OidTarget?;
    CancelsEncodable(cancels, byOid);
    ActionEncodable(if byOid then "cancel" else "cancelByCloid", KCancels, List(CancelWires(cancels, byOid).value), KType, Bool(true));
  }

  /* ---- every canonical action, built or not ------------------------------------------------------------ */

  /** Every text in the value fits a MessagePack text. */
  predicate Short(v: Js) {
    match v
    case Str(s) => |s| < 0x1_0000_0000
    case List(items) => ShortItems(items)
    case Record(fields) => ShortFields(fields)
    case _ => true
  }

  predicate ShortItems(items: Items) {
    items.Item? ==> Short(items.head) && ShortItems(items.tail)
  }

  predicate ShortFields(fields: Fields) {
    fields.Field? ==> Short(fields.value) && ShortFields(fields.rest)
  }

  lemma {:induction false} EncodableIsShort(v: Js)
    requires Encodable(v)
    ensures Short(v)
  {
    match v
    case List(items) => EncodableItemsShort(items);
    case Record(fields) => EncodableFieldsShort(fields);
    case _ =>
  }

  lemma {:induction false} EncodableItemsShort(items: Items)
    requires EncodableItems(items)
    ensures ShortItems(items)
  {
    if items.Item? {
      EncodableIsShort(items.head);
      EncodableItemsShort(items.tail);
    }
  }

  lemma {:induction false} EncodableFieldsShort(fields: Fields)
    requires EncodableFields(fields)
    ensures ShortFields(fields)
  {
    if fields.Field? {
      EncodableIsShort(fields.value);
      EncodableFieldsShort(fields.rest);
    }
  }

  lemma ShortFirst(k: Key, v: Js, rest: Fields)
    requires ShortFields(Field(k, v, rest))
    ensures Short(v) && ShortFields(rest)
  {
  }

  lemma ShortOrder(a: int, b: bool, p: string, s: string, r: bool, t: Js, c: string)
    requires Short(OrderFields(a, b, p, s, r, t, c))
    ensures |p| < 0x1_0000_0000 && |s| < 0x1_0000_0000 && Short(t)
  {
    var f7 := Field(KC, Str(c), NoFields);
    var f6 := Field(KT, t, f7);
    var f5 := Field(KR, Bool(r), f6);
    var f4 := Field(KS, Str(s), f5);
    var f3 := Field(KP, Str(p), f4);
    var f2 := Field(KB, Bool(b), f3);
    ShortFirst(KA, Num(a), f2);
    ShortFirst(KB, Bool(b), f3);
    ShortFirst(KP, Str(p), f4);
    ShortFirst(KS, Str(s), f5);
    ShortFirst(KR, Bool(r), f6);
    ShortFirst(KT, t, f7);
  }

  lemma ShortTrigger(px: string, tpsl: string)
    requires Short(TriggerType(px, tpsl))
    ensures |px| < 0x1_0000_0000
  {
    var f3 := Field(KTpsl, Str(tpsl), NoFields);
    var f2 := Field(KTriggerPx, Str(px), f3);
    var f1 := Field(KIsMarket, Bool(true), f2);
    ShortFirst(KTrigger, Record(f1), NoFields);
    ShortFirst(KIsMarket, Bool(true), f2);
    ShortFirst(KTriggerPx, Str(px), f3);
  }

  lemma CanonicalLimitEncodable(v: Js)
    requires CanonicalLimit(v).Some? && Short(CanonicalLimit(v).value)
    ensures Encodable(CanonicalLimit(v).value)
  {
    var f := v.fields;
    var a, b, p, s, r, c := Get(f, KA).n, Get(f, KB).b, Get(f, KP).s, Get(f, KS).s, Get(f, KR).b, Get(f, KC).s;
    var tif := Get(Get(Get(f, KT).fields, KLimit).fields, KTif).s;
    ShortOrder(a, b, p, s, r, LimitType(tif), Lower(c));
    DecimalIsAscii(p);
    DecimalIsAscii(s);
    CodecTheorems.LowerHex(c, 32);
    HexIsAscii(Lower(c), 32);
    TypesEncodable(tif, "", "");
    OrderEncodable(a, b, p, s, r, LimitType(tif), Lower(c));
  }

  lemma TriggerFieldsEncodable(a: int, b: bool, p: string, s: string, px: string, tpsl: string, c: string)
    requires Safe(a) && Decimals.Canonical(p) && Decimals.Canonical(s) && Decimals.Canonical(px) && AsciiText(tpsl) && CloidText(c)
    requires Short(OrderFields(a, b, p, s, true, TriggerType(px, tpsl), Lower(c)))
    ensures Encodable(OrderFields(a, b, p, s, true, TriggerType(px, tpsl), Lower(c)))
  {
    ShortOrder(a, b, p, s, true, TriggerType(px, tpsl), Lower(c));
    ShortTrigger(px, tpsl);
    DecimalIsAscii(p);
    DecimalIsAscii(s);
    DecimalIsAscii(px);
    CodecTheorems.LowerHex(c, 32);
    HexIsAscii(Lower(c), 32);
    TypesEncodable("", px, tpsl);
    OrderEncodable(a, b, p, s, true, TriggerType(px, tpsl), Lower(c));
  }

  lemma CanonicalTriggerEncodable(v: Js)
    requires CanonicalTrigger(v).Some? && Short(CanonicalTrigger(v).value)
    ensures Encodable(CanonicalTrigger(v).value)
  {
    var f := v.fields;
    var trigger := Get(Get(f, KT).fields, KTrigger).fields;
    TriggerFieldsEncodable(Get(f, KA).n, Get(f, KB).b, Get(f, KP).s, Get(f, KS).s,
                           Get(trigger, KTriggerPx).s, Get(trigger, KTpsl).s, Get(f, KC).s);
  }

  lemma CanonicalCancelEncodable(v: Js, byOid: bool)
    requires CanonicalCancel(v, byOid).Some?
    ensures Encodable(CanonicalCancel(v, byOid).value)
  {
    var target := if byOid then OidTarget(Get(v.fields, KO).n) else CloidTarget(Get(v.fields, KCloid).s);
    CancelEncodable(CancelOf(if byOid then Get(v.fields, KA).n else Get(v.fields, KAsset).n, target), byOid);
  }

  lemma {:induction false} CanonicalCancelsEncodable(items: Items, byOid: bool)
    requires CanonicalCancels(items, byOid).Some?
    ensures EncodableItems(CanonicalCancels(items, byOid).value)
    ensures Length(CanonicalCancels(items, byOid).value) == Length(items)
  {
    if items.Item? {
      CanonicalCancelEncodable(items.head, byOid);
      CanonicalCancelsEncodable(items.tail, byOid);
    }
  }

  lemma ShortOrderAction(order: Js, grouping: string)
    requires Short(OrderAction(order, grouping))
    ensures Short(order)
  {
    var list, rest := List(Item(order, NoItems)), Field(KGrouping, Str(grouping), NoFields);
    ShortFirst(KType, Str("order"), Field(KOrders, list, rest));
    ShortFirst(KOrders, list, rest);
    assert ShortItems(Item(order, NoItems));
  }

  lemma LimitActionEncodable(order: Js)
    requires CanonicalLimit(order).Some? && Short(OrderAction(CanonicalLimit(order).value, "na"))
    ensures Encodable(OrderAction(CanonicalLimit(order).value, "na"))
  {
    ShortOrderAction(CanonicalLimit(order).value, "na");
    CanonicalLimitEncodable(order);
    OrderActionEncodable(CanonicalLimit(order).value, "na");
  }

  lemma TriggerActionEncodable(order: Js)
    requires CanonicalTrigger(order).Some? && Short(OrderAction(CanonicalTrigger(order).value, "positionTpsl"))
    ensures Encodable(OrderAction(CanonicalTrigger(order).value, "positionTpsl"))
  {
    ShortOrderAction(CanonicalTrigger(order).value, "positionTpsl");
    CanonicalTriggerEncodable(order);
    GroupedEncodable(CanonicalTrigger(order).value);
  }

  lemma OrderActionForm(f: Fields)
    requires CanonicalOrderAction(f).Some?
    ensures Get(f, KOrders).List? && Get(f, KOrders).items.Item?
    ensures var order, v := Get(f, KOrders).items.head, CanonicalOrderAction(f).value;
      || (CanonicalLimit(order).Some? && v == OrderAction(CanonicalLimit(order).value, "na"))
      || (CanonicalTrigger(order).Some? && v == OrderAction(CanonicalTrigger(order).value, "positionTpsl"))
  {
  }

  lemma CanonicalOrderEncodable(f: Fields)
    requires CanonicalOrderAction(f).Some? && Short(CanonicalOrderAction(f).value)
    ensures Encodable(CanonicalOrderAction(f).value)
  {
    OrderActionForm(f);
    var order, v := Get(f, KOrders).items.head, CanonicalOrderAction(f).value;
    if CanonicalLimit(order).Some? && v == OrderAction(CanonicalLimit(order).value, "na") {
      LimitActionEncodable(order);
    } else {
      TriggerActionEncodable(order);
    }
  }

  lemma CanonicalModifyEncodable(f: Fields)
    requires CanonicalModifyAction(f).Some? && Short(CanonicalModifyAction(f).value)
    ensures Encodable(CanonicalModifyAction(f).value)
  {
    var oid, wire := Get(f, KOid).n, CanonicalTrigger(Get(f, KOrder)).value;
    ShortFirst(KType, Str("modify"), Field(KOid, Num(oid), Field(KOrder, wire, NoFields)));
    ShortFirst(KOid, Num(oid), Field(KOrder, wire, NoFields));
    ShortFirst(KOrder, wire, NoFields);
    CanonicalTriggerEncodable(Get(f, KOrder));
    ModifyEncodable(oid, wire);
  }

  lemma CanonicalBulkEncodable(f: Fields, byOid: bool)
    requires CanonicalCancelAction(f, byOid).Some?
    ensures Encodable(CanonicalCancelAction(f, byOid).value)
  {
    var items := Get(f, KCancels).items;
    CanonicalCancelsEncodable(items, byOid);
    ActionEncodable(if byOid then "cancel" else "cancelByCloid", KCancels, List(CanonicalCancels(items, byOid).value), KType, Bool(true));
  }

  /** Every canonical action is encoded if and only if its texts are shorter than 2^32. */
  lemma CanonicalIsEncodable(raw: Js)
    requires Canonicalize(raw).Some?
    ensures Encodable(Canonicalize(raw).value) <==> Short(Canonicalize(raw).value)
  {
    var v, f, kind := Canonicalize(raw).value, raw.fields, Get(raw.fields, KType).s;
    if Encodable(v) { EncodableIsShort(v); }
    if Short(v) {
      if kind == "order" { CanonicalOrderEncodable(f); }
      else if kind == "modify" { CanonicalModifyEncodable(f); }
      else if kind == "cancel" { CanonicalBulkEncodable(f, true); }
      else if kind == "cancelByCloid" { CanonicalBulkEncodable(f, false); }
      else { LeverageEncodable(Get(f, KAsset).n, Get(f, KIsCross).b, Get(f, KLeverage).n); }
    }
  }
}
