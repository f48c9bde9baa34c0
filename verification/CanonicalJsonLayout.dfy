/** The characters of the canonical text: its punctuation, the order of its keys, and what stands before it when it is hashed. */
module CanonicalJsonLayout {
  import opened Base
  import opened CanonicalJson
  import opened CanonicalJsonTheorems
  import opened CanonicalJsonInjective

  function Code(c: char): Unit
    requires c as int < 0x10000
  {
    c as int
  }

  /* ---- the order of keys ---------------------------------------------------------- */

  /** The texts part at `k`: the first ends there, or has the smaller unit. */
  predicate PartsAt(a: Text, b: Text, k: nat) {
    && k <= |a| && k <= |b| && a[..k] == b[..k]
    && (if k < |a| && k < |b| then a[k] < b[k] else k == |a| < |b|)
  }

  ghost predicate Ascends(a: Text, b: Text) {
    exists k: nat :: PartsAt(a, b, k)
  }

  lemma PartsLater(a: Text, b: Text, k: nat)
    requires PartsAt(a, b, k) && k > 0
    ensures a != [] && b != [] && a[0] == b[0]
  {
    assert a[..k][0] == b[..k][0];
  }

  /** Keys are compared unit by unit, as JavaScript sorts strings. */
  lemma {:induction false} BeforeExactly(a: Text, b: Text)
    ensures Before(a, b) <==> Ascends(a, b)
  {
    if a == [] || b == [] || a[0] != b[0] {
      if Before(a, b) { assert PartsAt(a, b, 0); }
      forall k: nat | PartsAt(a, b, k)
        ensures Before(a, b)
      {
        if k > 0 { PartsLater(a, b, k); }
      }
    } else {
      BeforeExactly(a[1..], b[1..]);
      if k: nat :| PartsAt(a[1..], b[1..], k) {
        assert a[..k + 1] == [a[0]] + a[1..][..k] && b[..k + 1] == [b[0]] + b[1..][..k];
        assert PartsAt(a, b, k + 1);
      }
      forall k: nat | PartsAt(a, b, k)
        ensures Before(a, b)
      {
        assert k > 0;
        assert a[1..][..k - 1] == a[..k][1..] && b[1..][..k - 1] == b[..k][1..];
        assert PartsAt(a[1..], b[1..], k - 1);
      }
    }
  }

  ghost predicate KeysAre(pairs: seq<(Text, Text)>, fields: Fields)
    decreases fields
  {
    if fields.NoFields? then pairs == []
    else pairs != [] && pairs[0].0 == fields.key && KeysAre(pairs[1..], fields.rest)
  }

  lemma {:induction false} FitKeys(pairs: seq<(Text, Text)>, fields: Fields)
    requires PairsFit(pairs, fields)
    ensures KeysAre(pairs, fields)
    decreases fields
  {
    if fields.Field? { FitKeys(pairs[1..], fields.rest); }
  }

  lemma {:induction false} SortedKeys(pairs: seq<(Text, Text)>, fields: Fields, i: nat)
    requires KeysAre(pairs, fields) && Sorted(fields) && i + 1 < |pairs|
    ensures Before(pairs[i].0, pairs[i + 1].0)
    decreases fields
  {
    if i > 0 { SortedKeys(pairs[1..], fields.rest, i - 1); }
  }

  /** The keys of a printed object ascend. */
  lemma PrintedKeysAscend(fields: Fields, i: nat)
    requires PrintableFields(fields) && WellKeyedFields(fields) && i + 1 < |SortedPairs(fields)|
    ensures Ascends(SortedPairs(fields)[i].0, SortedPairs(fields)[i + 1].0)
  {
    var pairs := SortedPairs(fields);
    SortedPairsFit(fields);
    FitKeys(pairs, NormFields(fields));
    NormSorted(fields);
    SortedKeys(pairs, NormFields(fields), i);
    BeforeExactly(pairs[i].0, pairs[i + 1].0);
  }

  /* ---- punctuation --------------------------------------------------------------------- */

  /** How each kind of value is written. */
  lemma PrintedAs(v: Json)
    requires Printable(v)
    ensures match v
      case Null => Print(v) == [Code('n'), Code('u'), Code('l'), Code('l')]
      case Bool(b) => Print(v) == if b then [Code('t'), Code('r'), Code('u'), Code('e')] else [Code('f'), Code('a'), Code('l'), Code('s'), Code('e')]
      case Str(s) => Print(v) == [Code('"')] + Escaped(s) + [Code('"')]
      case Num(n) => Print(v) == if n < 0 then [Code('-')] + Digits(-n) else Digits(n)
      case Arr(items) => Print(v) == [Code('[')] + Joined(ItemTexts(items)) + [Code(']')]
      case Obj(fields) => Print(v) == [Code('{')] + Joined(FieldTexts(SortedPairs(fields))) + [Code('}')]
      case Other => false
  {
  }

  /** A field is its quoted key, a colon and its value; parts stand in their order with one comma between any two. */
  lemma JoinedAs(pairs: seq<(Text, Text)>, parts: seq<Text>)
    ensures forall i :: 0 <= i < |pairs| ==> FieldTexts(pairs)[i] == [Code('"')] + Escaped(pairs[i].0) + [Code('"')] + [Code(':')] + pairs[i].1
    ensures Joined([]) == []
    ensures |parts| == 1 ==> Joined(parts) == parts[0]
    ensures |parts| > 1 ==> Joined(parts) == parts[0] + [Code(',')] + Joined(parts[1..])
  {
  }

  /** Escapes are those of section 7 of RFC 8259, the short ones where there are; a surrogate pair is kept, half of one is escaped. */
  lemma EscapedAs(u: Unit)
    ensures EscapedUnit(u) ==
      if u == 8 then [Code('\\'), Code('b')] else if u == 9 then [Code('\\'), Code('t')]
      else if u == 10 then [Code('\\'), Code('n')] else if u == 12 then [Code('\\'), Code('f')]
      else if u == 13 then [Code('\\'), Code('r')] else if u == Code('"') then [Code('\\'), Code('"')]
      else if u == Code('\\') then [Code('\\'), Code('\\')]
      else if u < 32 || 0xD800 <= u < 0xE000 then [Code('\\'), Code('u')] + Hex4(u) else [u]
  {
  }

  /** A version is a name of lower-case letters, digits and dashes, then `/v` and a number without leading zero. */
  ghost predicate NameAndNumber(t: Text, name: Text, digits: Text) {
    && t == name + [Code('/'), Code('v')] + digits
    && name != [] && (forall i :: 0 <= i < |name| ==> Code('a') <= name[i] <= Code('z') || Code('0') <= name[i] <= Code('9') || name[i] == Code('-'))
    && digits != [] && digits[0] != Code('0') && forall i :: 0 <= i < |digits| ==> Code('0') <= digits[i] <= Code('9')
  }

  lemma VersionExactly(t: Text)
    ensures VersionText(t) <==> exists name: Text, digits: Text :: NameAndNumber(t, name, digits)
  {
    if VersionText(t) {
      var k :| 0 < k < |t| - 2 && VersionSplit(t, k);
      assert forall i :: k + 3 <= i < |t| ==> t[i] in t[k + 3..];
      assert t == t[..k] + [Code('/'), Code('v')] + t[k + 2..];
      assert NameAndNumber(t, t[..k], t[k + 2..]);
    }
    forall name: Text, digits: Text | NameAndNumber(t, name, digits)
      ensures VersionText(t)
    {
      SplitIs(t, name, digits);
    }
  }

  lemma SplitIs(t: Text, name: Text, digits: Text)
    requires NameAndNumber(t, name, digits)
    ensures VersionText(t)
  {
    var k := |name|;
    assert t[..k] == name && t[k + 2..] == digits;
    assert forall i :: 0 <= i < k ==> t[i] == name[i];
    assert t[k + 3..] == digits[1..];
    assert t[k + 2] == digits[0];
    assert VersionSplit(t, k);
  }

  /** What operationDigest hashes: version, one line feed, canonical text; any other version or value throws. */
  lemma PreimageAs(version: Text, v: Json)
    ensures Preimage(version, v).Ok? <==> VersionText(version) && Printable(v)
    ensures Preimage(version, v).Ok? ==> Preimage(version, v).value == version + [Code('\n')] + Print(v)
  {
  }
}
