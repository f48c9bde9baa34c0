/** Two printable values print alike exactly when they are the same up to key order. */
module CanonicalJsonInjective {
  import opened Base
  import opened CanonicalJson
  import opened CanonicalJsonTheorems

  /* ---- the key order ------------------------------------------------------------------ */

  lemma {:induction false} BeforeTotal(a: Text, b: Text)
    ensures a == b || Before(a, b) || Before(b, a)
    ensures !(Before(a, b) && Before(b, a))
    ensures !Before(a, a)
  {
    if a != [] && b != [] {
      BeforeTotal(a[1..], b[1..]);
      assert a == [a[0]] + a[1..] && b == [b[0]] + b[1..];
    }
    if a != [] { BeforeTotal(a[1..], a[1..]); }
  }

  lemma {:induction false} BeforeTransitive(a: Text, b: Text, c: Text)
    requires Before(a, b) && Before(b, c)
    ensures Before(a, c)
  {
    if a != [] && a[0] == b[0] == c[0] { BeforeTransitive(a[1..], b[1..], c[1..]); }
  }

  /* ---- sorted fields ------------------------------------------------------------------- */

  /** Strictly increasing keys. */
  predicate Sorted(fields: Fields) {
    fields.Field? && fields.rest.Field? ==> Before(fields.key, fields.rest.key) && Sorted(fields.rest)
  }

  lemma {:induction false} InsertSorted(key: Text, value: Json, fields: Fields)
    requires Sorted(fields) && !HasKey(fields, key)
    ensures Sorted(InsertField(key, value, fields))
  {
    if fields.Field? {
      BeforeTotal(key, fields.key);
      if !Before(key, fields.key) { InsertSorted(key, value, fields.rest); }
    }
  }

  lemma {:induction false} InsertLookup(key: Text, value: Json, fields: Fields, k: Text)
    requires !HasKey(fields, key)
    ensures HasKey(InsertField(key, value, fields), k) <==> k == key || HasKey(fields, k)
    ensures HasKey(InsertField(key, value, fields), k) ==>
      Lookup(InsertField(key, value, fields), k) == if k == key then value else Lookup(fields, k)
    ensures Count(InsertField(key, value, fields)) == 1 + Count(fields)
  {
    if fields.Field? && !Before(key, fields.key) { InsertLookup(key, value, fields.rest, k); }
  }

  lemma {:induction false} NormLookup(fields: Fields, k: Text)
    requires WellKeyedFields(fields)
    ensures HasKey(NormFields(fields), k) <==> HasKey(fields, k)
    ensures HasKey(fields, k) ==> Lookup(NormFields(fields), k) == Norm(Lookup(fields, k))
    ensures Count(NormFields(fields)) == Count(fields)
  {
    if fields.Field? {
      NormLookup(fields.rest, k);
      NormLookup(fields.rest, fields.key);
      InsertLookup(fields.key, Norm(fields.value), NormFields(fields.rest), k);
    }
  }

  lemma {:induction false} NormSorted(fields: Fields)
    requires WellKeyedFields(fields)
    ensures Sorted(NormFields(fields))
  {
    if fields.Field? {
      NormSorted(fields.rest);
      NormLookup(fields.rest, fields.key);
      InsertSorted(fields.key, Norm(fields.value), NormFields(fields.rest));
    }
  }

  /** Every field of `p` stands in `q`. */
  ghost predicate Within(p: Fields, q: Fields) {
    forall k :: HasKey(p, k) ==> HasKey(q, k) && Lookup(p, k) == Lookup(q, k)
  }

  lemma {:induction false} FirstIsLeast(fields: Fields, k: Text)
    requires Sorted(fields) && HasKey(fields, k)
    ensures k == fields.key || Before(fields.key, k)
  {
    if k != fields.key {
      FirstIsLeast(fields.rest, k);
      if k != fields.rest.key { BeforeTransitive(fields.key, fields.rest.key, k); }
    }
  }

  /** The keys after the first one, in a sorted list, are the others. */
  lemma RestWithin(p: Fields, q: Fields)
    requires Sorted(p) && Sorted(q) && p.Field? && q.Field? && Within(p, q) && p.key == q.key
    ensures Within(p.rest, q.rest) && p.value == q.value
  {
    assert HasKey(p, p.key);
    forall k | HasKey(p.rest, k)
      ensures HasKey(q.rest, k) && Lookup(p.rest, k) == Lookup(q.rest, k)
    {
      FirstIsLeast(p.rest, k);
      BeforeTotal(p.key, p.rest.key);
      if k != p.rest.key { BeforeTransitive(p.key, p.rest.key, k); }
      BeforeTotal(p.key, k);
      assert HasKey(p, k);
    }
  }

  lemma SkipFirst(p: Fields, q: Fields)
    requires Sorted(p) && Sorted(q) && p.Field? && q.Field? && Within(p, q) && p.key != q.key
    ensures Within(p, q.rest)
  {
    forall k | HasKey(p, k)
      ensures HasKey(q.rest, k) && Lookup(p, k) == Lookup(q.rest, k)
    {
      assert HasKey(p, p.key);
      FirstIsLeast(q, p.key);
      FirstIsLeast(p, k);
      if k != p.key { BeforeTransitive(q.key, p.key, k); }
      BeforeTotal(q.key, k);
    }
  }

  lemma {:induction false} WithinCounts(p: Fields, q: Fields)
    requires Sorted(p) && Sorted(q) && Within(p, q)
    ensures Count(p) <= Count(q)
    ensures Count(p) == Count(q) ==> p == q
    decreases q
  {
    if p.Field? {
      assert HasKey(p, p.key);
      if p.key == q.key {
        RestWithin(p, q);
        WithinCounts(p.rest, q.rest);
      } else {
        SkipFirst(p, q);
        WithinCounts(p, q.rest);
      }
    }
  }

  /* ---- Same is equality of normal forms ---------------------------------------------------- */

  lemma {:induction false} SameIsNorm(a: Json, b: Json)
    requires WellKeyed(a) && WellKeyed(b)
    ensures Same(a, b) <==> Norm(a) == Norm(b)
    decreases a
  {
    if a.Arr? && b.Arr? {
      SameItemsIsNorm(a.items, b.items);
    } else if a.Obj? && b.Obj? {
      SameObjects(a.fields, b.fields);
    }
  }

  lemma {:induction false} SameItemsIsNorm(a: Items, b: Items)
    requires WellKeyedItems(a) && WellKeyedItems(b)
    ensures SameItems(a, b) <==> NormItems(a) == NormItems(b)
    decreases a
  {
    if a.Item? && b.Item? {
      SameIsNorm(a.head, b.head);
      SameItemsIsNorm(a.tail, b.tail);
    }
  }

  lemma {:induction false} LookupWellKeyed(fields: Fields, k: Text)
    requires WellKeyedFields(fields) && HasKey(fields, k)
    ensures WellKeyed(Lookup(fields, k))
  {
    if fields.key != k { LookupWellKeyed(fields.rest, k); }
  }

  /** Every field of `a` matches the normal form of `b`. */
  ghost predicate Matches(a: Fields, b: Fields) {
    forall k :: HasKey(a, k) ==> HasKey(b, k) && Norm(Lookup(a, k)) == Norm(Lookup(b, k))
  }

  lemma {:induction false} SameFieldsIsMatches(a: Fields, b: Fields)
    requires WellKeyedFields(a) && WellKeyedFields(b)
    ensures SameFields(a, b) <==> Matches(a, b)
    decreases a, 0
  {
    if a.Field? {
      SameFieldsIsMatches(a.rest, b);
      if HasKey(b, a.key) {
        LookupWellKeyed(b, a.key);
        SameIsNorm(a.value, Lookup(b, a.key));
      }
      assert HasKey(a, a.key) && Lookup(a, a.key) == a.value;
      assert forall k :: HasKey(a.rest, k) ==> HasKey(a, k) && Lookup(a, k) == Lookup(a.rest, k);
      assert forall k :: HasKey(a, k) ==> k == a.key || HasKey(a.rest, k);
    }
  }

  lemma {:induction false} SameObjects(a: Fields, b: Fields)
    requires WellKeyedFields(a) && WellKeyedFields(b)
    ensures Count(a) == Count(b) && SameFields(a, b) <==> NormFields(a) == NormFields(b)
    decreases a, 1
  {
    SameFieldsIsMatches(a, b);
    MatchesIsNorm(a, b);
  }

  lemma MatchesIsNorm(a: Fields, b: Fields)
    requires WellKeyedFields(a) && WellKeyedFields(b)
    ensures Count(a) == Count(b) && Matches(a, b) <==> NormFields(a) == NormFields(b)
  {
    var p, q := NormFields(a), NormFields(b);
    forall k
      ensures HasKey(p, k) <==> HasKey(a, k)
      ensures HasKey(a, k) ==> Lookup(p, k) == Norm(Lookup(a, k))
      ensures HasKey(q, k) <==> HasKey(b, k)
      ensures HasKey(b, k) ==> Lookup(q, k) == Norm(Lookup(b, k))
    {
      NormLookup(a, k);
      NormLookup(b, k);
    }
    NormLookup(a, []);
    NormLookup(b, []);
    NormSorted(a);
    NormSorted(b);
    if Count(a) == Count(b) && Matches(a, b) {
      assert Within(p, q);
      WithinCounts(p, q);
    }
  }

  /* ---- the text depends on the normal form only ---------------------------------------------- */

  lemma {:induction false} InsertPairsCommute(p: (Text, Text), q: (Text, Text), pairs: seq<(Text, Text)>)
    requires p.0 != q.0
    ensures InsertPair(p, InsertPair(q, pairs)) == InsertPair(q, InsertPair(p, pairs))
    decreases |pairs|
  {
    BeforeTotal(p.0, q.0);
    if pairs != [] {
      var h := pairs[0];
      if Before(p.0, q.0) && Before(q.0, h.0) { BeforeTransitive(p.0, q.0, h.0); }
      if Before(q.0, p.0) && Before(p.0, h.0) { BeforeTransitive(q.0, p.0, h.0); }
      InsertPairsCommute(p, q, pairs[1..]);
      assert ([h] + InsertPair(p, pairs[1..]))[1..] == InsertPair(p, pairs[1..]);
      assert ([h] + InsertPair(q, pairs[1..]))[1..] == InsertPair(q, pairs[1..]);
    }
    assert ([p] + pairs)[1..] == pairs && ([q] + pairs)[1..] == pairs;
  }

  lemma {:induction false} InsertedPairs(key: Text, value: Json, fields: Fields)
    requires !HasKey(fields, key)
    ensures SortedPairs(InsertField(key, value, fields)) == InsertPair((key, Print(value)), SortedPairs(fields))
  {
    if fields.Field? && !Before(key, fields.key) {
      InsertedPairs(key, value, fields.rest);
      InsertPairsCommute((key, Print(value)), (fields.key, Print(fields.value)), SortedPairs(fields.rest));
    }
  }

  lemma {:induction false} PrintNorm(v: Json)
    requires WellKeyed(v)
    ensures Print(Norm(v)) == Print(v)
  {
    match v
    case Arr(items) => PrintNormItems(items);
    case Obj(fields) => PrintNormFields(fields);
    case _ =>
  }

  lemma {:induction false} PrintNormItems(items: Items)
    requires WellKeyedItems(items)
    ensures ItemTexts(NormItems(items)) == ItemTexts(items)
  {
    if items.Item? {
      PrintNorm(items.head);
      PrintNormItems(items.tail);
    }
  }

  lemma {:induction false} PrintNormFields(fields: Fields)
    requires WellKeyedFields(fields)
    ensures SortedPairs(NormFields(fields)) == SortedPairs(fields)
  {
    if fields.Field? {
      PrintNorm(fields.value);
      PrintNormFields(fields.rest);
      NormLookup(fields.rest, fields.key);
      InsertedPairs(fields.key, Norm(fields.value), NormFields(fields.rest));
    }
  }

  /* ---- the main results ----------------------------------------------------------------------- */

  /** The whole text reads back to the value with its keys in order. */
  lemma ReaderUndoesPrinter(v: Json)
    requires Printable(v)
    ensures ReadValue(Print(v)) == Some(Read(Norm(v), []))
  {
    PrintReads(v);
    assert Ends([]) && Print(v) + [] == Print(v);
  }

  /** Same text exactly when same value up to key order. */
  lemma CanonicalIsInjective(a: Json, b: Json)
    requires WellKeyed(a) && WellKeyed(b) && Canonical(a).Ok? && Canonical(b).Ok?
    ensures Canonical(a) == Canonical(b) <==> Same(a, b)
  {
    SameIsNorm(a, b);
    if Print(a) == Print(b) {
      ReaderUndoesPrinter(a);
      ReaderUndoesPrinter(b);
    }
    PrintNorm(a);
    PrintNorm(b);
  }

  lemma VersionHasNoNewline(t: Text)
    requires VersionText(t)
    ensures NEWLINE !in t
  {
    var k :| 0 < k < |t| - 2 && VersionSplit(t, k);
    forall i | 0 <= i < |t|
      ensures t[i] != NEWLINE
    {
      if i >= k + 3 { assert t[k + 3..][i - k - 3] in t[k + 3..]; }
    }
  }

  lemma NewlineSplits(v: Text, a: Text, w: Text, b: Text)
    requires NEWLINE !in v && NEWLINE !in w && v + [NEWLINE] + a == w + [NEWLINE] + b
    ensures v == w && a == b
  {
    var x, y := v + [NEWLINE] + a, w + [NEWLINE] + b;
    assert x[|v|] == NEWLINE && y[|w|] == NEWLINE;
    assert |v| == |w|;
    assert x[..|v|] == v && y[..|w|] == w && x[|v| + 1..] == a && y[|w| + 1..] == b;
  }

  /** The hashed text determines the operation version and the operation. */
  lemma PreimageIsInjective(v: Text, a: Json, w: Text, b: Json)
    requires WellKeyed(a) && WellKeyed(b) && Preimage(v, a).Ok? && Preimage(w, b).Ok?
    ensures Preimage(v, a) == Preimage(w, b) <==> v == w && Same(a, b)
  {
    CanonicalIsInjective(a, b);
    if Preimage(v, a) == Preimage(w, b) {
      VersionHasNoNewline(v);
      VersionHasNoNewline(w);
      NewlineSplits(v, Print(a), w, Print(b));
    }
  }

  /* ---- the text is well-formed UTF-16 ------------------------------------------------------------ */

  /** Every surrogate stands in a pair, so encoding to UTF-8 replaces nothing. */
  predicate WellFormed(t: Text) {
    if t == [] then true
    else if High(t[0]) then |t| > 1 && Low(t[1]) && WellFormed(t[2..])
    else !Low(t[0]) && WellFormed(t[1..])
  }

  lemma {:induction false} WellFormedConcat(a: Text, b: Text)
    requires WellFormed(a) && WellFormed(b)
    ensures WellFormed(a + b)
    decreases |a|
  {
    if a == [] {
      assert a + b == b;
    } else if High(a[0]) {
      WellFormedConcat(a[2..], b);
      assert (a + b)[2..] == a[2..] + b;
    } else {
      WellFormedConcat(a[1..], b);
      assert (a + b)[1..] == a[1..] + b;
    }
  }

  lemma {:induction false} PlainWellFormed(t: Text)
    requires forall i :: 0 <= i < |t| ==> t[i] < 128
    ensures WellFormed(t)
  {
    if t != [] { PlainWellFormed(t[1..]); }
  }

  lemma {:induction false} EscapedWellFormed(s: Text)
    ensures WellFormed(Escaped(s))
    decreases |s|
  {
    if s == [] {
    } else if |s| > 1 && High(s[0]) && Low(s[1]) {
      EscapedWellFormed(s[2..]);
      PairWellFormed(s[0], s[1]);
      WellFormedConcat([s[0], s[1]], Escaped(s[2..]));
    } else {
      EscapedWellFormed(s[1..]);
      UnitWellFormed(s[0]);
      WellFormedConcat(EscapedUnit(s[0]), Escaped(s[1..]));
    }
  }

  lemma PairWellFormed(h: Unit, l: Unit)
    requires High(h) && Low(l)
    ensures WellFormed([h, l])
  {
    assert [h, l][2..] == [];
  }

  lemma UnitWellFormed(u: Unit)
    ensures WellFormed(EscapedUnit(u))
  {
    var e := EscapedUnit(u);
    if ShortEscape(u).Some? || u < 32 || High(u) || Low(u) {
      PlainWellFormed(e);
    } else {
      assert e[1..] == [];
    }
  }

  lemma QuotedWellFormed(s: Text)
    ensures WellFormed(Quoted(s))
  {
    EscapedWellFormed(s);
    PlainWellFormed([QUOTE]);
    WellFormedConcat([QUOTE], Escaped(s));
    WellFormedConcat([QUOTE] + Escaped(s), [QUOTE]);
  }

  lemma {:induction false} DigitsPlain(n: nat)
    ensures forall i :: 0 <= i < |Digits(n)| ==> Digits(n)[i] < 128
  {
    if n >= 10 { DigitsPlain(n / 10); }
  }

  lemma {:induction false} JoinedWellFormed(parts: seq<Text>)
    requires forall i :: 0 <= i < |parts| ==> WellFormed(parts[i])
    ensures WellFormed(Joined(parts))
  {
    if |parts| > 1 {
      JoinedWellFormed(parts[1..]);
      PlainWellFormed([COMMA]);
      WellFormedConcat(parts[0], [COMMA]);
      WellFormedConcat(parts[0] + [COMMA], Joined(parts[1..]));
    }
  }

  lemma Bracketed(open: Unit, t: Text, close: Unit)
    requires open < 128 && close < 128 && WellFormed(t)
    ensures WellFormed([open] + t + [close])
  {
    PlainWellFormed([open]);
    PlainWellFormed([close]);
    WellFormedConcat([open], t);
    WellFormedConcat([open] + t, [close]);
  }

  lemma FieldTextsWellFormed(pairs: seq<(Text, Text)>)
    requires forall i :: 0 <= i < |pairs| ==> WellFormed(pairs[i].1)
    ensures WellFormed(Joined(FieldTexts(pairs)))
  {
    forall i | 0 <= i < |pairs|
      ensures WellFormed(FieldTexts(pairs)[i])
    {
      QuotedWellFormed(pairs[i].0);
      PlainWellFormed([COLON]);
      WellFormedConcat(Quoted(pairs[i].0), [COLON]);
      WellFormedConcat(Quoted(pairs[i].0) + [COLON], pairs[i].1);
    }
    JoinedWellFormed(FieldTexts(pairs));
  }

  lemma {:induction false} PrintWellFormed(v: Json)
    ensures WellFormed(Print(v))
  {
    match v
    case Null => PlainWellFormed(NULL_TEXT);
    case Str(s) => QuotedWellFormed(s);
    case Bool(b) =>
      PlainWellFormed(TRUE_TEXT);
      PlainWellFormed(FALSE_TEXT);
    case Num(n) =>
      DigitsPlain(if n < 0 then -n else n);
      PlainWellFormed(NumberText(n));
    case Arr(items) =>
      ItemTextsWellFormed(items);
      JoinedWellFormed(ItemTexts(items));
      Bracketed(OPEN_LIST, Joined(ItemTexts(items)), CLOSE_LIST);
    case Obj(fields) =>
      PairsWellFormed(fields);
      FieldTextsWellFormed(SortedPairs(fields));
      Bracketed(OPEN_OBJECT, Joined(FieldTexts(SortedPairs(fields))), CLOSE_OBJECT);
    case Other =>
  }

  lemma {:induction false} ItemTextsWellFormed(items: Items)
    ensures forall i :: 0 <= i < |ItemTexts(items)| ==> WellFormed(ItemTexts(items)[i])
  {
    if items.Item? {
      PrintWellFormed(items.head);
      ItemTextsWellFormed(items.tail);
    }
  }

  lemma {:induction false} InsertMembers(p: (Text, Text), pairs: seq<(Text, Text)>)
    ensures forall q :: q in InsertPair(p, pairs) <==> q == p || q in pairs
    decreases |pairs|
  {
    if pairs != [] && !Before(p.0, pairs[0].0) {
      InsertMembers(p, pairs[1..]);
      assert pairs == [pairs[0]] + pairs[1..];
    }
  }

  lemma {:induction false} PairsWellFormed(fields: Fields)
    ensures forall q :: q in SortedPairs(fields) ==> WellFormed(q.1)
  {
    if fields.Field? {
      PrintWellFormed(fields.value);
      PairsWellFormed(fields.rest);
      InsertMembers((fields.key, Print(fields.value)), SortedPairs(fields.rest));
    }
  }
}
