/** The canonical JSON text whose digest an account proof signs. */
module CanonicalJson {
  import opened Base

  /** A UTF-16 code unit, the element of a JavaScript string. */
  type Unit = u: nat | u < 0x10000
  type Text = seq<Unit>

  /** A JavaScript value; `Other` stands for everything the printer refuses outright. */
  datatype Json = Null | Str(text: Text) | Bool(value: bool) | Num(n: int) | Arr(items: Items) | Obj(fields: Fields) | Other
  datatype Items = NoItems | Item(head: Json, tail: Items)
  /** Own properties in insertion order. */
  datatype Fields = NoFields | Field(key: Text, value: Json, rest: Fields)

  const QUOTE: Unit := 34
  const COMMA: Unit := 44
  const MINUS: Unit := 45
  const COLON: Unit := 58
  const OPEN_LIST: Unit := 91
  const BACKSLASH: Unit := 92
  const CLOSE_LIST: Unit := 93
  const OPEN_OBJECT: Unit := 123
  const CLOSE_OBJECT: Unit := 125
  const NEWLINE: Unit := 10

  const NULL_TEXT: Text := [110, 117, 108, 108]
  const TRUE_TEXT: Text := [116, 114, 117, 101]
  const FALSE_TEXT: Text := [102, 97, 108, 115, 101]

  /* ---- JSON.stringify of a string -------------------------------------------- */

  predicate High(u: Unit) { 0xD800 <= u <= 0xDBFF }
  predicate Low(u: Unit) { 0xDC00 <= u <= 0xDFFF }

  function HexDigit(d: nat): Unit
    requires d < 16
  {
    if d < 10 then 48 + d else 87 + d
  }

  function Hex4(u: Unit): Text {
    [HexDigit(u / 4096), HexDigit(u / 256 % 16), HexDigit(u / 16 % 16), HexDigit(u % 16)]
  }

  /** The letter of a two-unit escape. */
  function ShortEscape(u: Unit): Option<Unit> {
    if u == 8 then Some(98) else if u == 9 then Some(116) else if u == 10 then Some(110)
    else if u == 12 then Some(102) else if u == 13 then Some(114)
    else if u == QUOTE then Some(QUOTE) else if u == BACKSLASH then Some(BACKSLASH) else None
  }

  /** A unit that is not half of a surrogate pair. */
  function EscapedUnit(u: Unit): Text {
    if ShortEscape(u).Some? then [BACKSLASH, ShortEscape(u).value]
    else if u < 32 || High(u) || Low(u) then [BACKSLASH, 117] + Hex4(u)
    else [u]
  }

  function Escaped(s: Text): Text {
    if s == [] then []
    else if |s| > 1 && High(s[0]) && Low(s[1]) then [s[0], s[1]] + Escaped(s[2..])
    else EscapedUnit(s[0]) + Escaped(s[1..])
  }

  function Quoted(s: Text): Text {
    [QUOTE] + Escaped(s) + [QUOTE]
  }

  /* ---- String of a safe integer ------------------------------------------------ */

  function Digits(n: nat): Text {
    if n < 10 then [48 + n] else Digits(n / 10) + [48 + n % 10]
  }

  function NumberText(n: int): Text {
    if n < 0 then [MINUS] + Digits(-n) else Digits(n)
  }

  /* ---- canonicalJson ------------------------------------------------------------- */

  /** The order of Array.prototype.sort on strings. */
  predicate Before(a: Text, b: Text) {
    if a == [] then b != []
    else if b == [] then false
    else a[0] < b[0] || (a[0] == b[0] && Before(a[1..], b[1..]))
  }

  function InsertPair(p: (Text, Text), sorted: seq<(Text, Text)>): seq<(Text, Text)>
    decreases |sorted|
  {
    if sorted == [] || Before(p.0, sorted[0].0) then [p] + sorted
    else [sorted[0]] + InsertPair(p, sorted[1..])
  }

  function Joined(parts: seq<Text>): Text {
    if parts == [] then []
    else if |parts| == 1 then parts[0]
    else parts[0] + [COMMA] + Joined(parts[1..])
  }

  function FieldTexts(pairs: seq<(Text, Text)>): seq<Text> {
    seq(|pairs|, i requires 0 <= i < |pairs| => Quoted(pairs[i].0) + [COLON] + pairs[i].1)
  }

  function Print(v: Json): Text {
    match v
    case Null => NULL_TEXT
    case Str(s) => Quoted(s)
    case Bool(b) => if b then TRUE_TEXT else FALSE_TEXT
    case Num(n) => NumberText(n)
    case Arr(items) => [OPEN_LIST] + Joined(ItemTexts(items)) + [CLOSE_LIST]
    case Obj(fields) => [OPEN_OBJECT] + Joined(FieldTexts(SortedPairs(fields))) + [CLOSE_OBJECT]
    case Other => []
  }

  function ItemTexts(items: Items): seq<Text> {
    match items
    case NoItems => []
    case Item(head, tail) => [Print(head)] + ItemTexts(tail)
  }

  /** Key and printed value of every field, in key order. */
  function SortedPairs(fields: Fields): seq<(Text, Text)> {
    match fields
    case NoFields => []
    case Field(key, value, rest) => InsertPair((key, Print(value)), SortedPairs(rest))
  }

  /** Everything below is null, a string, a boolean, a safe integer, an array or an object. */
  predicate Printable(v: Json) {
    match v
    case Num(n) => -MAX_SAFE <= n <= MAX_SAFE
    case Arr(items) => PrintableItems(items)
    case Obj(fields) => PrintableFields(fields)
    case Other => false
    case _ => true
  }

  predicate PrintableItems(items: Items) {
    items.Item? ==> Printable(items.head) && PrintableItems(items.tail)
  }

  predicate PrintableFields(fields: Fields) {
    fields.Field? ==> Printable(fields.value) && PrintableFields(fields.rest)
  }

  function Canonical(v: Json): Result<Text> {
    if Printable(v) then Ok(Print(v)) else Err("operation contains a noncanonical value")
  }

  /** The text operationDigest hashes. */
  function Preimage(version: Text, v: Json): Result<Text> {
    if !VersionText(version) then Err("operation version is invalid")
    else if !Printable(v) then Err("operation contains a noncanonical value")
    else Ok(version + [NEWLINE] + Print(v))
  }

  predicate VersionChar(u: Unit) {
    97 <= u <= 122 || 48 <= u <= 57 || u == MINUS
  }

  predicate AllDigits(t: Text) {
    forall u :: u in t ==> 48 <= u <= 57
  }

  /** `name/vN`: lower-case letters, digits and dashes, then a positive version. */
  predicate VersionText(t: Text) {
    exists k :: 0 < k < |t| - 2 && VersionSplit(t, k)
  }

  predicate VersionSplit(t: Text, k: nat)
    requires 0 < k < |t| - 2
  {
    && (forall i :: 0 <= i < k ==> VersionChar(t[i]))
    && t[k] == 47 && t[k + 1] == 118 && 49 <= t[k + 2] <= 57 && AllDigits(t[k + 3..])
  }

  /* ---- a reader -------------------------------------------------------------------- */

  datatype Read<T> = Read(value: T, rest: Text)

  function HexValue(u: Unit): Option<nat> {
    if 48 <= u <= 57 then Some(u - 48) else if 97 <= u <= 102 then Some(u - 87) else None
  }

  function ReadHex4(t: Text): Option<Unit>
    requires |t| >= 4
  {
    var a, b, c, d := HexValue(t[0]), HexValue(t[1]), HexValue(t[2]), HexValue(t[3]);
    if a.Some? && b.Some? && c.Some? && d.Some? && a.value < 16 && b.value < 16 && c.value < 16 && d.value < 16
    then Some(a.value * 4096 + b.value * 256 + c.value * 16 + d.value) else None
  }

  function ShortMeaning(u: Unit): Option<Unit> {
    if u == 98 then Some(8) else if u == 116 then Some(9) else if u == 110 then Some(10)
    else if u == 102 then Some(12) else if u == 114 then Some(13)
    else if u == QUOTE then Some(QUOTE) else if u == BACKSLASH then Some(BACKSLASH) else None
  }

  /** One unit of a string and how much text it took. */
  function ReadUnit(t: Text): Option<Read<Unit>>
    requires t != []
  {
    if t[0] != BACKSLASH then Some(Read(t[0], t[1..]))
    else if |t| >= 2 && ShortMeaning(t[1]).Some? then Some(Read(ShortMeaning(t[1]).value, t[2..]))
    else if |t| >= 6 && t[1] == 117 && ReadHex4(t[2..6]).Some? then Some(Read(ReadHex4(t[2..6]).value, t[6..]))
    else None
  }

  /** The text after an opening quote, up to the closing one. */
  function ReadString(t: Text): (r: Option<Read<Text>>)
    ensures r.Some? ==> |r.value.rest| < |t|
    decreases |t|
  {
    if t == [] then None
    else if t[0] == QUOTE then Some(Read([], t[1..]))
    else
      var u := ReadUnit(t);
      if u.None? then None
      else
        var more := ReadString(u.value.rest);
        if more.None? then None else Some(Read([u.value.value] + more.value.value, more.value.rest))
  }

  predicate Digit(u: Unit) { 48 <= u <= 57 }

  function ReadDigits(t: Text, acc: nat): (r: Read<nat>)
    ensures |r.rest| <= |t|
    decreases |t|
  {
    if t == [] || !Digit(t[0]) then Read(acc, t) else ReadDigits(t[1..], 10 * acc + t[0] - 48)
  }

  function ReadValue(t: Text): (r: Option<Read<Json>>)
    ensures r.Some? ==> |r.value.rest| < |t|
    decreases |t|, 0
  {
    if t == [] then None
    else if t[0] == QUOTE then
      var s := ReadString(t[1..]);
      if s.None? then None else Some(Read(Str(s.value.value), s.value.rest))
    else if NULL_TEXT <= t then Some(Read(Null, t[4..]))
    else if TRUE_TEXT <= t then Some(Read(Bool(true), t[4..]))
    else if FALSE_TEXT <= t then Some(Read(Bool(false), t[5..]))
    else if Digit(t[0]) then
      var n := ReadDigits(t[1..], t[0] - 48);
      Some(Read(Num(n.value), n.rest))
    else if t[0] == MINUS then
      var n := ReadDigits(t[1..], 0);
      Some(Read(Num(0 - n.value as int), n.rest))
    else if t[0] == OPEN_LIST then
      if |t| > 1 && t[1] == CLOSE_LIST then Some(Read(Arr(NoItems), t[2..]))
      else
        var items := ReadItems(t[1..]);
        if items.None? then None else Some(Read(Arr(items.value.value), items.value.rest))
    else if t[0] == OPEN_OBJECT then
      if |t| > 1 && t[1] == CLOSE_OBJECT then Some(Read(Obj(NoFields), t[2..]))
      else
        var fields := ReadFields(t[1..]);
        if fields.None? then None else Some(Read(Obj(fields.value.value), fields.value.rest))
    else None
  }

  function ReadItems(t: Text): (r: Option<Read<Items>>)
    ensures r.Some? ==> |r.value.rest| < |t|
    decreases |t|, 1
  {
    var head := ReadValue(t);
    if head.None? || head.value.rest == [] then None
    else if head.value.rest[0] == CLOSE_LIST then Some(Read(Item(head.value.value, NoItems), head.value.rest[1..]))
    else if head.value.rest[0] == COMMA then
      var tail := ReadItems(head.value.rest[1..]);
      if tail.None? then None else Some(Read(Item(head.value.value, tail.value.value), tail.value.rest))
    else None
  }

  function ReadFields(t: Text): (r: Option<Read<Fields>>)
    ensures r.Some? ==> |r.value.rest| < |t|
    decreases |t|, 1
  {
    if t == [] || t[0] != QUOTE then None
    else
      var key := ReadString(t[1..]);
      if key.None? || key.value.rest == [] || key.value.rest[0] != COLON then None
      else
        var value := ReadValue(key.value.rest[1..]);
        if value.None? || value.value.rest == [] then None
        else if value.value.rest[0] == CLOSE_OBJECT then
          Some(Read(Field(key.value.value, value.value.value, NoFields), value.value.rest[1..]))
        else if value.value.rest[0] == COMMA then
          var rest := ReadFields(value.value.rest[1..]);
          if rest.None? then None
          else Some(Read(Field(key.value.value, value.value.value, rest.value.value), rest.value.rest))
        else None
  }

  /* ---- equality up to key order ------------------------------------------------------ */

  predicate HasKey(fields: Fields, key: Text) {
    fields.Field? && (fields.key == key || HasKey(fields.rest, key))
  }

  function Lookup(fields: Fields, key: Text): Json
    requires HasKey(fields, key)
  {
    if fields.key == key then fields.value else Lookup(fields.rest, key)
  }

  function Count(fields: Fields): nat {
    if fields.NoFields? then 0 else 1 + Count(fields.rest)
  }

  /** Own properties have distinct keys, all the way down. */
  predicate WellKeyed(v: Json) {
    match v
    case Arr(items) => WellKeyedItems(items)
    case Obj(fields) => WellKeyedFields(fields)
    case _ => true
  }

  predicate WellKeyedItems(items: Items) {
    items.Item? ==> WellKeyed(items.head) && WellKeyedItems(items.tail)
  }

  predicate WellKeyedFields(fields: Fields) {
    fields.Field? ==> WellKeyed(fields.value) && !HasKey(fields.rest, fields.key) && WellKeyedFields(fields.rest)
  }

  /** The same value, whatever the order of keys. */
  predicate Same(a: Json, b: Json) {
    if a.Arr? && b.Arr? then SameItems(a.items, b.items)
    else if a.Obj? && b.Obj? then Count(a.fields) == Count(b.fields) && SameFields(a.fields, b.fields)
    else a == b
  }

  predicate SameItems(a: Items, b: Items) {
    if a.Item? && b.Item? then Same(a.head, b.head) && SameItems(a.tail, b.tail) else a == b
  }

  /** Every field of `a` has its counterpart in `b`. */
  predicate SameFields(a: Fields, b: Fields) {
    a.Field? ==> HasKey(b, a.key) && Same(a.value, Lookup(b, a.key)) && SameFields(a.rest, b)
  }
}
