/** The MessagePack formats the signed actions use, and the hash preimage framed around them. */
module MessagePack {
  import opened Base
  import opened Codec

  /** Bytes are integers from 0 to 255. */
  type Bytes = seq<int>

  /** Big-endian, `k` bytes. */
  function BigEndian(n: nat, k: nat): (b: Bytes)
    ensures |b| == k
  {
    if k == 0 then [] else BigEndian(n / 256, k - 1) + [n % 256]
  }

  function FromBigEndian(b: Bytes): int {
    if b == [] then 0 else 256 * FromBigEndian(b[..|b| - 1]) + b[|b| - 1]
  }

  function Pow256(k: nat): nat {
    if k == 0 then 1 else 256 * Pow256(k - 1)
  }

  /** The header of a value: its format byte and what follows before any payload. */
  datatype Head = BoolHead(b: bool) | NumHead(n: nat) | StrHead(length: nat) | ListHead(length: nat) | MapHead(length: nat)

  predicate HeadFits(h: Head) {
    match h
    case BoolHead(_) => true
    case NumHead(n) => n <= MAX_SAFE
    case StrHead(n) => n < 0x1_0000_0000
    case ListHead(n) => n < 0x1_0000_0000
    case MapHead(n) => n < 0x1_0000_0000
  }

  function EncodeHead(h: Head): Bytes {
    match h
    case BoolHead(b) => [if b then 0xc3 else 0xc2]
    case NumHead(n) =>
      if n < 0x80 then [n]
      else if n < 0x100 then [0xcc, n]
      else if n < 0x1_0000 then [0xcd] + BigEndian(n, 2)
      else if n < 0x1_0000_0000 then [0xce] + BigEndian(n, 4)
      else [0xcf] + BigEndian(n, 8)
    case StrHead(n) =>
      if n < 32 then [0xa0 + n]
      else if n < 0x100 then [0xd9, n]
      else if n < 0x1_0000 then [0xda] + BigEndian(n, 2)
      else [0xdb] + BigEndian(n, 4)
    case ListHead(n) =>
      if n < 16 then [0x90 + n]
      else if n < 0x1_0000 then [0xdc] + BigEndian(n, 2)
      else [0xdd] + BigEndian(n, 4)
    case MapHead(n) =>
      if n < 16 then [0x80 + n]
      else if n < 0x1_0000 then [0xde] + BigEndian(n, 2)
      else [0xdf] + BigEndian(n, 4)
  }

  /** UTF-8 of a text without characters above U+007F. */
  function TextBytes(s: string): Bytes {
    seq(|s|, i requires 0 <= i < |s| => s[i] as int)
  }

  function EncodeText(s: string): Bytes {
    EncodeHead(StrHead(|s|)) + TextBytes(s)
  }

  function NameOf(key: Key): string {
    match key
    case KType => "type" case KOrders => "orders" case KGrouping => "grouping" case KOid => "oid" case KOrder => "order"
    case KCancels => "cancels" case KAsset => "asset" case KCloid => "cloid" case KIsCross => "isCross"
    case KLeverage => "leverage" case KA => "a" case KB => "b" case KP => "p" case KS => "s" case KR => "r" case KT => "t"
    case KC => "c" case KO => "o" case KLimit => "limit" case KTif => "tif" case KTrigger => "trigger"
    case KIsMarket => "isMarket" case KTriggerPx => "triggerPx" case KTpsl => "tpsl"
    case Foreign(name) => name
  }

  predicate AsciiText(s: string) {
    |s| < 0x1_0000_0000 && forall i :: 0 <= i < |s| ==> s[i] as int < 0x80
  }

  /** What the model encodes: booleans, safe naturals, ASCII texts, and lists and records of these. */
  predicate Encodable(v: Js) {
    match v
    case Bool(_) => true
    case Num(n) => Safe(n)
    case Str(s) => AsciiText(s)
    case List(items) => EncodableItems(items) && Length(items) < 0x1_0000_0000
    case Record(fields) => EncodableFields(fields) && Count(fields) < 0x1_0000_0000
    case Alien => false
  }

  predicate EncodableItems(items: Items) {
    items.Item? ==> Encodable(items.head) && EncodableItems(items.tail)
  }

  predicate EncodableFields(fields: Fields) {
    fields.Field? ==> !fields.key.Foreign? && Encodable(fields.value) && EncodableFields(fields.rest)
  }

  function Encode(v: Js): Bytes
    requires Encodable(v)
  {
    match v
    case Bool(b) => EncodeHead(BoolHead(b))
    case Num(n) => EncodeHead(NumHead(n))
    case Str(s) => EncodeText(s)
    case List(items) => EncodeHead(ListHead(Length(items))) + EncodeItems(items)
    case Record(fields) => EncodeHead(MapHead(Count(fields))) + EncodeFields(fields)
  }

  function EncodeItems(items: Items): Bytes
    requires EncodableItems(items)
  {
    if items.NoItems? then [] else Encode(items.head) + EncodeItems(items.tail)
  }

  function EncodeFields(fields: Fields): Bytes
    requires EncodableFields(fields)
  {
    if fields.NoFields? then [] else EncodeText(NameOf(fields.key)) + (Encode(fields.value) + EncodeFields(fields.rest))
  }

  /* ---- encodeL1Action ------------------------------------------------------------- */

  datatype Input = Input(action: Js, nonce: int, vault: Option<string>, expiresAfter: Option<int>)

  function HexValue(c: char): int {
    if '0' <= c <= '9' then c as int - '0' as int
    else if 'a' <= c <= 'f' then c as int - 'a' as int + 10
    else c as int - 'A' as int + 10
  }

  /** hexToBytes of a 20-byte address. */
  function AddressBytes(s: string): (b: Bytes)
    requires HexText(s, 40)
    ensures |b| == 20
  {
    seq(20, i requires 0 <= i < 20 => 16 * HexValue(s[2 + 2 * i]) + HexValue(s[3 + 2 * i]))
  }

  predicate ExpiryFits(nonce: int, expiry: Option<int>) {
    expiry.Some? ==> Safe(expiry.value) && nonce < expiry.value <= nonce + ACTION_EXPIRY_MS
  }

  predicate Accepted(input: Input) {
    && Safe(input.nonce)
    && Canonicalize(input.action).Some? && Encodable(Canonicalize(input.action).value)
    && (input.vault.Some? ==> HexText(input.vault.value, 40))
    && ExpiryFits(input.nonce, input.expiresAfter)
  }

  function VaultBytes(vault: Option<string>): Bytes
    requires vault.Some? ==> HexText(vault.value, 40)
  {
    if vault.None? then [0] else [1] + AddressBytes(vault.value)
  }

  function ExpiryBytes(expiry: Option<int>): Bytes
    requires expiry.Some? ==> Safe(expiry.value)
  {
    if expiry.None? then [] else [0] + BigEndian(expiry.value, 8)
  }

  function Preimage(input: Input): Bytes
    requires Accepted(input)
  {
    Encode(Canonicalize(input.action).value)
    + (BigEndian(input.nonce, 8) + (VaultBytes(input.vault) + ExpiryBytes(input.expiresAfter)))
  }

  /* ---- a decoder --------------------------------------------------------------------- */

  datatype Read<T> = Read(value: T, rest: Bytes)

  /** A header with `k` length bytes after the format byte. */
  function Wide(t: Bytes, k: nat): int
    requires |t| > k
  {
    FromBigEndian(t[1..k + 1])
  }

  function DecodeHead(t: Bytes): (r: Option<Read<Head>>)
    ensures r.Some? ==> |r.value.rest| < |t|
  {
    if t == [] || t[0] < 0 then None
    else if t[0] < 0x80 then Some(Read(NumHead(t[0]), t[1..]))
    else if t[0] < 0x90 then Some(Read(MapHead(t[0] - 0x80), t[1..]))
    else if t[0] < 0xa0 then Some(Read(ListHead(t[0] - 0x90), t[1..]))
    else if t[0] < 0xc0 then Some(Read(StrHead(t[0] - 0xa0), t[1..]))
    else if t[0] == 0xc2 then Some(Read(BoolHead(false), t[1..]))
    else if t[0] == 0xc3 then Some(Read(BoolHead(true), t[1..]))
    else
      var k := LengthBytes(t[0]);
      if k == 0 || |t| <= k || Wide(t, k) < 0 then None
      else
        var n: nat := Wide(t, k);
        Some(Read(if t[0] < 0xd0 then NumHead(n) else if t[0] < 0xdc then StrHead(n) else if t[0] < 0xde then ListHead(n) else MapHead(n),
                  t[k + 1..]))
  }

  function LengthBytes(format: int): nat {
    if format == 0xcc || format == 0xd9 then 1
    else if format == 0xcd || format == 0xda || format == 0xdc || format == 0xde then 2
    else if format == 0xce || format == 0xdb || format == 0xdd || format == 0xdf then 4
    else if format == 0xcf then 8
    else 0
  }
}
