/** The canonical text determines the value up to key order. */
module CanonicalJsonTheorems {
  import opened Base
  import opened CanonicalJson

  /* ---- strings -------------------------------------------------------------------- */

  lemma HexRead(d: nat)
    requires d < 16
    ensures HexValue(HexDigit(d)) == Some(d)
  {
  }

  lemma HexSplit(u: Unit)
    ensures u / 4096 < 16
    ensures u / 4096 * 4096 + u / 256 % 16 * 256 + u / 16 % 16 * 16 + u % 16 == u
  {
    assert u / 16 == u / 256 * 16 + u / 16 % 16;
    assert u / 256 == u / 4096 * 16 + u / 256 % 16;
  }

  lemma Hex4Read(u: Unit)
    ensures ReadHex4(Hex4(u)) == Some(u)
  {
    HexSplit(u);
    var t := Hex4(u);
    assert HexValue(t[0]) == Some(u / 4096) by { HexRead(u / 4096); }
    assert HexValue(t[1]) == Some(u / 256 % 16) by { HexRead(u / 256 % 16); }
    assert HexValue(t[2]) == Some(u / 16 % 16) by { HexRead(u / 16 % 16); }
    assert HexValue(t[3]) == Some(u % 16) by { HexRead(u % 16); }
  }

  lemma UnitRead(u: Unit, rest: Text)
    ensures EscapedUnit(u) + rest != [] && (EscapedUnit(u) + rest)[0] != QUOTE
    ensures ReadUnit(EscapedUnit(u) + rest) == Some(Read(u, rest))
  {
    var e := EscapedUnit(u);
    var t := e + rest;
    assert t[|e|..] == rest;
    if ShortEscape(u).None? && (u < 32 || High(u) || Low(u)) {
      Hex4Read(u);
      assert t[2..6] == Hex4(u);
    }
  }

  /** One unit at a time. */
  lemma StringStep(t: Text, u: Unit, inner: Text, s: Text, rest: Text)
    requires t != [] && t[0] != QUOTE && ReadUnit(t) == Some(Read(u, inner)) && ReadString(inner) == Some(Read(s, rest))
    ensures ReadString(t) == Some(Read([u] + s, rest))
  {
  }

  lemma RawStep(u: Unit, inner: Text, s: Text, rest: Text)
    requires u != QUOTE && u != BACKSLASH && ReadString(inner) == Some(Read(s, rest))
    ensures ReadString([u] + inner) == Some(Read([u] + s, rest))
  {
    assert ([u] + inner)[1..] == inner;
    StringStep([u] + inner, u, inner, s, rest);
  }

  lemma PairStep(s: Text, inner: Text, rest: Text)
    requires |s| > 1 && High(s[0]) && Low(s[1]) && ReadString(inner) == Some(Read(s[2..], rest))
    ensures ReadString([s[0], s[1]] + inner) == Some(Read(s, rest))
  {
    RawStep(s[1], inner, s[2..], rest);
    RawStep(s[0], [s[1]] + inner, [s[1]] + s[2..], rest);
    assert [s[0], s[1]] + inner == [s[0]] + ([s[1]] + inner);
    assert [s[0]] + ([s[1]] + s[2..]) == s;
  }

  lemma UnitStep(s: Text, inner: Text, rest: Text)
    requires s != [] && ReadString(inner) == Some(Read(s[1..], rest))
    ensures ReadString(EscapedUnit(s[0]) + inner) == Some(Read(s, rest))
  {
    UnitRead(s[0], inner);
    StringStep(EscapedUnit(s[0]) + inner, s[0], inner, s[1..], rest);
    assert [s[0]] + s[1..] == s;
  }

  /** How many units of the string the next piece of the escaped text stands for, and that piece. */
  lemma EscapedStep(s: Text, tail: Text)
    requires s != []
    ensures if |s| > 1 && High(s[0]) && Low(s[1])
      then Escaped(s) + tail == [s[0], s[1]] + (Escaped(s[2..]) + tail)
      else Escaped(s) + tail == EscapedUnit(s[0]) + (Escaped(s[1..]) + tail)
  {
    if |s| > 1 && High(s[0]) && Low(s[1]) {
      Associates([s[0], s[1]], Escaped(s[2..]), tail);
    } else {
      Associates(EscapedUnit(s[0]), Escaped(s[1..]), tail);
    }
  }

  lemma Associates(a: Text, b: Text, c: Text)
    ensures (a + b) + c == a + (b + c)
  {
  }

  lemma {:induction false} TailRead(s: Text, tail: Text, rest: Text)
    requires ReadString(tail) == Some(Read([], rest))
    ensures ReadString(Escaped(s) + tail) == Some(Read(s, rest))
    decreases |s|
  {
    if s == [] {
      assert Escaped(s) + tail == tail;
    } else {
      EscapedStep(s, tail);
      if |s| > 1 && High(s[0]) && Low(s[1]) {
        TailRead(s[2..], tail, rest);
        PairStep(s, Escaped(s[2..]) + tail, rest);
      } else {
        TailRead(s[1..], tail, rest);
        UnitStep(s, Escaped(s[1..]) + tail, rest);
      }
    }
  }

  lemma StringRead(s: Text, rest: Text)
    ensures ReadString(Escaped(s) + [QUOTE] + rest) == Some(Read(s, rest))
  {
    assert ([QUOTE] + rest)[1..] == rest;
    TailRead(s, [QUOTE] + rest, rest);
    assert Escaped(s) + [QUOTE] + rest == Escaped(s) + ([QUOTE] + rest);
  }

  /* ---- numbers -------------------------------------------------------------------- */

  /** What may follow a value: the end, or anything but a digit. */
  predicate Ends(rest: Text) {
    rest == [] || !Digit(rest[0])
  }

  lemma {:induction false} DigitsRead(n: nat, rest: Text)
    ensures Digits(n) != [] && Digit(Digits(n)[0])
    ensures ReadDigits(Digits(n) + rest, 0) == ReadDigits(rest, n)
  {
    if n < 10 {
      assert ([48 + n] + rest)[1..] == rest;
    } else {
      var more: Text := [48 + n % 10] + rest;
      DigitsRead(n / 10, more);
      assert Digits(n) + rest == Digits(n / 10) + more;
      assert more[1..] == rest;
    }
  }

  lemma PlainNumber(t: Text, n: nat, rest: Text)
    requires t != [] && Digit(t[0]) && ReadDigits(t, 0) == Read(n, rest)
    ensures ReadValue(t) == Some(Read(Num(n), rest))
  {
    assert ReadDigits(t, 0) == ReadDigits(t[1..], t[0] - 48);
  }

  lemma NegativeNumber(t: Text, n: nat, rest: Text)
    requires t != [] && t[0] == MINUS && ReadDigits(t[1..], 0) == Read(n, rest)
    ensures ReadValue(t) == Some(Read(Num(-(n as int)), rest))
  {
  }

  lemma NegativeRead(n: nat, rest: Text)
    requires Ends(rest)
    ensures ReadValue(([MINUS] + Digits(n)) + rest) == Some(Read(Num(-(n as int)), rest))
  {
    var t := ([MINUS] + Digits(n)) + rest;
    DigitsRead(n, rest);
    assert t[1..] == Digits(n) + rest;
    NegativeNumber(t, n, rest);
  }

  lemma NumberRead(n: int, rest: Text)
    requires Ends(rest)
    ensures ReadValue(NumberText(n) + rest) == Some(Read(Num(n), rest))
  {
    if n < 0 {
      NegativeRead(-n, rest);
    } else {
      DigitsRead(n, rest);
      PlainNumber(Digits(n) + rest, n, rest);
    }
  }

  /* ---- fields in key order ---------------------------------------------------------- */

  function InsertField(key: Text, value: Json, sorted: Fields): Fields {
    if sorted.NoFields? || Before(key, sorted.key) then Field(key, value, sorted)
    else Field(sorted.key, sorted.value, InsertField(key, value, sorted.rest))
  }

  /** The value with the fields of every object in key order. */
  function Norm(v: Json): Json {
    match v
    case Arr(items) => Arr(NormItems(items))
    case Obj(fields) => Obj(NormFields(fields))
    case _ => v
  }

  function NormItems(items: Items): Items {
    if items.NoItems? then NoItems else Item(Norm(items.head), NormItems(items.tail))
  }

  function NormFields(fields: Fields): Fields {
    if fields.NoFields? then NoFields else InsertField(fields.key, Norm(fields.value), NormFields(fields.rest))
  }

  /* ---- the reader undoes the printer -------------------------------------------------- */

  ghost predicate Reads(text: Text, v: Json) {
    forall rest :: Ends(rest) ==> ReadValue(text + rest) == Some(Read(v, rest))
  }

  lemma ReadsStart(text: Text, v: Json)
    requires Reads(text, v)
    ensures text != [] && text[0] != CLOSE_LIST
  {
    assert Ends([]) && text + [] == text;
    assert ReadValue(text + []).Some?;
  }

  /** Printed pairs and the fields they read back to. */
  ghost predicate PairsFit(pairs: seq<(Text, Text)>, fields: Fields)
    decreases fields
  {
    if fields.NoFields? then pairs == []
    else pairs != [] && pairs[0].0 == fields.key && Reads(pairs[0].1, fields.value) && PairsFit(pairs[1..], fields.rest)
  }

  lemma {:induction false} InsertFits(pairs: seq<(Text, Text)>, fields: Fields, key: Text, text: Text, value: Json)
    requires PairsFit(pairs, fields) && Reads(text, value)
    ensures PairsFit(InsertPair((key, text), pairs), InsertField(key, value, fields))
    decreases fields
  {
    if pairs == [] || Before(key, pairs[0].0) {
      assert ([(key, text)] + pairs)[1..] == pairs;
    } else {
      InsertFits(pairs[1..], fields.rest, key, text, value);
      var after := InsertPair((key, text), pairs);
      assert after[1..] == InsertPair((key, text), pairs[1..]);
    }
  }

  lemma JoinedMore(parts: seq<Text>)
    requires |parts| > 1
    ensures Joined(parts) == parts[0] + [COMMA] + Joined(parts[1..])
  {
  }

  /** One field and what follows it. */
  lemma FieldStep(key: Text, text: Text, value: Json, after: Text)
    requires Reads(text, value) && after != [] && Ends(after)
    ensures var t := [QUOTE] + (Escaped(key) + [QUOTE] + ([COLON] + (text + after)));
      && (after[0] == CLOSE_OBJECT ==> ReadFields(t) == Some(Read(Field(key, value, NoFields), after[1..])))
      && (after[0] == COMMA && ReadFields(after[1..]).Some? ==>
            ReadFields(t) == Some(Read(Field(key, value, ReadFields(after[1..]).value.value), ReadFields(after[1..]).value.rest)))
  {
    var tail := [COLON] + (text + after);
    StringRead(key, tail);
    var t := [QUOTE] + (Escaped(key) + [QUOTE] + tail);
    assert t[1..] == Escaped(key) + [QUOTE] + tail;
    assert tail[1..] == text + after;
    assert ReadValue(text + after) == Some(Read(value, after));
  }

  lemma FieldsText(pairs: seq<(Text, Text)>, rest: Text)
    requires pairs != []
    ensures Joined(FieldTexts(pairs)) + [CLOSE_OBJECT] + rest ==
      [QUOTE] + (Escaped(pairs[0].0) + [QUOTE] + ([COLON] + (pairs[0].1 +
        if |pairs| == 1 then [CLOSE_OBJECT] + rest
        else [COMMA] + (Joined(FieldTexts(pairs[1..])) + [CLOSE_OBJECT] + rest))))
    ensures Joined(FieldTexts(pairs)) != [] && Joined(FieldTexts(pairs))[0] == QUOTE
  {
    if |pairs| > 1 {
      assert FieldTexts(pairs)[1..] == FieldTexts(pairs[1..]);
      JoinedMore(FieldTexts(pairs));
    }
  }

  lemma {:induction false} FieldsRead(pairs: seq<(Text, Text)>, fields: Fields, rest: Text)
    requires PairsFit(pairs, fields) && pairs != []
    ensures ReadFields(Joined(FieldTexts(pairs)) + [CLOSE_OBJECT] + rest) == Some(Read(fields, rest))
    decreases fields
  {
    FieldsText(pairs, rest);
    if |pairs| == 1 {
      var after := [CLOSE_OBJECT] + rest;
      FieldStep(pairs[0].0, pairs[0].1, fields.value, after);
      assert after[1..] == rest;
    } else {
      FieldsRead(pairs[1..], fields.rest, rest);
      var more := Joined(FieldTexts(pairs[1..])) + [CLOSE_OBJECT] + rest;
      FieldStep(pairs[0].0, pairs[0].1, fields.value, [COMMA] + more);
      assert ([COMMA] + more)[1..] == more;
    }
  }

  /** Printed items and the items they read back to. */
  ghost predicate ItemsFit(texts: seq<Text>, items: Items)
    decreases items
  {
    if items.NoItems? then texts == []
    else texts != [] && Reads(texts[0], items.head) && ItemsFit(texts[1..], items.tail)
  }

  /** One item and what follows it. */
  lemma ItemStep(text: Text, value: Json, after: Text)
    requires Reads(text, value) && after != [] && Ends(after)
    ensures after[0] == CLOSE_LIST ==> ReadItems(text + after) == Some(Read(Item(value, NoItems), after[1..]))
    ensures after[0] == COMMA && ReadItems(after[1..]).Some? ==>
      ReadItems(text + after) == Some(Read(Item(value, ReadItems(after[1..]).value.value), ReadItems(after[1..]).value.rest))
  {
    assert ReadValue(text + after) == Some(Read(value, after));
  }

  lemma ItemsText(texts: seq<Text>, rest: Text)
    requires texts != []
    ensures Joined(texts) + [CLOSE_LIST] + rest ==
      texts[0] + if |texts| == 1 then [CLOSE_LIST] + rest else [COMMA] + (Joined(texts[1..]) + [CLOSE_LIST] + rest)
  {
  }

  lemma {:induction false} ItemsRead(texts: seq<Text>, items: Items, rest: Text)
    requires ItemsFit(texts, items) && texts != []
    ensures ReadItems(Joined(texts) + [CLOSE_LIST] + rest) == Some(Read(items, rest))
    decreases items
  {
    ItemsText(texts, rest);
    if |texts| == 1 {
      var after := [CLOSE_LIST] + rest;
      ItemStep(texts[0], items.head, after);
      assert after[1..] == rest;
    } else {
      ItemsRead(texts[1..], items.tail, rest);
      var more := Joined(texts[1..]) + [CLOSE_LIST] + rest;
      ItemStep(texts[0], items.head, [COMMA] + more);
      assert ([COMMA] + more)[1..] == more;
    }
  }

  lemma JoinedStart(texts: seq<Text>, items: Items)
    requires ItemsFit(texts, items) && texts != []
    ensures Joined(texts) != [] && Joined(texts)[0] != CLOSE_LIST
  {
    ReadsStart(texts[0], items.head);
  }

  lemma LiteralReads(v: Json)
    requires v.Null? || v.Bool?
    ensures Reads(Print(v), v)
  {
    forall rest | Ends(rest)
      ensures ReadValue(Print(v) + rest) == Some(Read(v, rest))
    {
      var t := Print(v) + rest;
      assert t[|Print(v)|..] == rest;
      assert Print(v) <= t;
    }
  }

  lemma StringValue(t: Text, s: Text, rest: Text)
    requires t == Quoted(s) + rest && ReadString(Escaped(s) + [QUOTE] + rest) == Some(Read(s, rest))
    ensures ReadValue(t) == Some(Read(Str(s), rest))
  {
    assert t[1..] == Escaped(s) + [QUOTE] + rest;
  }

  lemma StringReads(s: Text)
    ensures Reads(Quoted(s), Str(s))
  {
    forall rest | Ends(rest)
      ensures ReadValue(Quoted(s) + rest) == Some(Read(Str(s), rest))
    {
      StringRead(s, rest);
      StringValue(Quoted(s) + rest, s, rest);
    }
  }

  lemma NumberReads(n: int)
    ensures Reads(NumberText(n), Num(n))
  {
    forall rest | Ends(rest)
      ensures ReadValue(NumberText(n) + rest) == Some(Read(Num(n), rest))
    {
      NumberRead(n, rest);
    }
  }

  /** ReadValue on the first unit of a list or an object. */
  lemma ListValue(t: Text, items: Items, rest: Text)
    requires |t| > 1 && t[0] == OPEN_LIST
    requires if t[1] == CLOSE_LIST then items == NoItems && rest == t[2..] else ReadItems(t[1..]) == Some(Read(items, rest))
    ensures ReadValue(t) == Some(Read(Arr(items), rest))
  {
  }

  lemma ObjectValue(t: Text, fields: Fields, rest: Text)
    requires |t| > 1 && t[0] == OPEN_OBJECT
    requires if t[1] == CLOSE_OBJECT then fields == NoFields && rest == t[2..] else ReadFields(t[1..]) == Some(Read(fields, rest))
    ensures ReadValue(t) == Some(Read(Obj(fields), rest))
  {
  }

  lemma ListReads(texts: seq<Text>, items: Items)
    requires ItemsFit(texts, items)
    ensures Reads([OPEN_LIST] + Joined(texts) + [CLOSE_LIST], Arr(items))
  {
    forall rest | Ends(rest)
      ensures ReadValue([OPEN_LIST] + Joined(texts) + [CLOSE_LIST] + rest) == Some(Read(Arr(items), rest))
    {
      var t := [OPEN_LIST] + Joined(texts) + [CLOSE_LIST] + rest;
      assert t[1..] == Joined(texts) + [CLOSE_LIST] + rest;
      if texts == [] {
        assert t[1] == CLOSE_LIST && t[2..] == rest;
      } else {
        ItemsRead(texts, items, rest);
        JoinedStart(texts, items);
        assert t[1] == Joined(texts)[0];
      }
      ListValue(t, items, rest);
    }
  }

  lemma ObjectReads(pairs: seq<(Text, Text)>, fields: Fields)
    requires PairsFit(pairs, fields)
    ensures Reads([OPEN_OBJECT] + Joined(FieldTexts(pairs)) + [CLOSE_OBJECT], Obj(fields))
  {
    forall rest | Ends(rest)
      ensures ReadValue([OPEN_OBJECT] + Joined(FieldTexts(pairs)) + [CLOSE_OBJECT] + rest) == Some(Read(Obj(fields), rest))
    {
      ObjectText(pairs, fields, rest);
    }
  }

  lemma ObjectText(pairs: seq<(Text, Text)>, fields: Fields, rest: Text)
    requires PairsFit(pairs, fields)
    ensures ReadValue([OPEN_OBJECT] + Joined(FieldTexts(pairs)) + [CLOSE_OBJECT] + rest) == Some(Read(Obj(fields), rest))
  {
    var body := Joined(FieldTexts(pairs));
    var t := [OPEN_OBJECT] + body + [CLOSE_OBJECT] + rest;
    assert t[1..] == body + [CLOSE_OBJECT] + rest;
    if pairs == [] {
      assert body == [] && t[2..] == rest;
    } else {
      FieldsRead(pairs, fields, rest);
      assert body != [] && body[0] == QUOTE by { FieldsText(pairs, rest); }
    }
    ObjectValue(t, fields, rest);
  }

  /** The reader undoes the printer, up to key order. */
  lemma {:induction false} PrintReads(v: Json)
    requires Printable(v)
    ensures Reads(Print(v), Norm(v))
  {
    match v
    case Null => LiteralReads(v);
    case Str(s) => StringReads(s);
    case Bool(_) => LiteralReads(v);
    case Num(n) => NumberReads(n);
    case Arr(items) =>
      ItemTextsFit(items);
      ListReads(ItemTexts(items), NormItems(items));
    case Obj(fields) =>
      SortedPairsFit(fields);
      ObjectReads(SortedPairs(fields), NormFields(fields));
  }

  lemma {:induction false} ItemTextsFit(items: Items)
    requires PrintableItems(items)
    ensures ItemsFit(ItemTexts(items), NormItems(items))
  {
    if items.Item? {
      PrintReads(items.head);
      ItemTextsFit(items.tail);
      assert ItemTexts(items)[1..] == ItemTexts(items.tail);
    }
  }

  lemma {:induction false} SortedPairsFit(fields: Fields)
    requires PrintableFields(fields)
    ensures PairsFit(SortedPairs(fields), NormFields(fields))
  {
    if fields.Field? {
      PrintReads(fields.value);
      SortedPairsFit(fields.rest);
      InsertFits(SortedPairs(fields.rest), NormFields(fields.rest), fields.key, Print(fields.value), Norm(fields.value));
    }
  }
}
