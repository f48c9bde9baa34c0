/**
 Why the MAC of a tombstone protects it: the text it is made of determines every field, so
 under a MAC that never repeats nothing in an accepted replay can be changed.
 */
module LedgerTampering {
  import opened Base
  import opened Ledger
  import CanonicalJson
  import CanonicalJsonInjective

  /* ---- the text under the MAC -------------------------------------------------- */

  predicate Ascii(s: string) {
    forall i :: 0 <= i < |s| ==> s[i] as int < 128
  }

  function Units(s: string): (t: CanonicalJson.Text)
    requires Ascii(s)
    ensures |t| == |s| && forall i :: 0 <= i < |s| ==> t[i] == s[i] as int
  {
    if s == [] then []
    else
      var u: CanonicalJson.Unit := s[0] as int;
      [u] + Units(s[1..])
  }

  lemma UnitsInjective(a: string, b: string)
    requires Ascii(a) && Ascii(b) && Units(a) == Units(b)
    ensures a == b
  {
    forall i | 0 <= i < |a|
      ensures a[i] == b[i]
    {
      assert Units(a)[i] == Units(b)[i];
    }
  }

  predicate Texts(item: Tombstone) {
    Ascii(item.deletionId) && Ascii(item.scopeKind) && Ascii(item.scopeMac) && Ascii(item.keyVersion)
  }

  predicate Numbers(item: Tombstone) {
    Safe(item.sequence) && Safe(item.deletionGeneration) && Safe(item.deletedAt)
  }

  function Word(s: string): CanonicalJson.Json
    requires Ascii(s)
  {
    CanonicalJson.Str(Units(s))
  }

  function ItemsOf(values: seq<CanonicalJson.Json>): CanonicalJson.Items {
    if values == [] then CanonicalJson.NoItems else CanonicalJson.Item(values[0], ItemsOf(values[1..]))
  }

  predicate Flat(values: seq<CanonicalJson.Json>) {
    forall i :: 0 <= i < |values| ==> (values[i].Str? || values[i].Num?) && CanonicalJson.Printable(values[i])
  }

  lemma {:induction false} FlatItems(a: seq<CanonicalJson.Json>, b: seq<CanonicalJson.Json>)
    requires Flat(a) && Flat(b)
    ensures CanonicalJson.PrintableItems(ItemsOf(a)) && CanonicalJson.WellKeyedItems(ItemsOf(a))
    ensures CanonicalJson.SameItems(ItemsOf(a), ItemsOf(b)) <==> a == b
    decreases |a|
  {
    if a != [] && b != [] {
      FlatItems(a[1..], b[1..]);
      assert a == [a[0]] + a[1..] && b == [b[0]] + b[1..];
    } else if a != [] {
      FlatItems(a[1..], b);
    }
  }

  /** The fields tombstoneMacBytes prints, behind a version that is deletion-tombstone/v1. */
  function MacFields(version: string, item: Tombstone): seq<CanonicalJson.Json>
    requires Ascii(version) && Texts(item)
  {
    [Word(version), CanonicalJson.Num(item.sequence), Word(item.deletionId), Word(item.scopeKind),
     Word(item.scopeMac), CanonicalJson.Num(item.deletionGeneration), CanonicalJson.Num(item.deletedAt), Word(item.keyVersion)]
  }

  function MacText(version: string, item: Tombstone): CanonicalJson.Text
    requires Ascii(version) && Texts(item)
  {
    CanonicalJson.Print(CanonicalJson.Arr(ItemsOf(MacFields(version, item))))
  }

  lemma FieldsInjective(version: string, a: Tombstone, b: Tombstone)
    requires Ascii(version) && Texts(a) && Texts(b) && MacFields(version, a) == MacFields(version, b)
    ensures a.(mac := "") == b.(mac := "")
  {
    var p, q := MacFields(version, a), MacFields(version, b);
    assert p[1] == q[1] && p[2] == q[2] && p[3] == q[3] && p[4] == q[4] && p[5] == q[5] && p[6] == q[6] && p[7] == q[7];
    UnitsInjective(a.deletionId, b.deletionId);
    UnitsInjective(a.scopeKind, b.scopeKind);
    UnitsInjective(a.scopeMac, b.scopeMac);
    UnitsInjective(a.keyVersion, b.keyVersion);
  }

  lemma FlatTexts(p: seq<CanonicalJson.Json>, q: seq<CanonicalJson.Json>)
    requires Flat(p) && Flat(q)
    ensures CanonicalJson.Print(CanonicalJson.Arr(ItemsOf(p))) == CanonicalJson.Print(CanonicalJson.Arr(ItemsOf(q))) <==> p == q
  {
    FlatItems(p, q);
    FlatItems(q, p);
    CanonicalJsonInjective.CanonicalIsInjective(CanonicalJson.Arr(ItemsOf(p)), CanonicalJson.Arr(ItemsOf(q)));
  }

  lemma MacFieldsFlat(version: string, item: Tombstone)
    requires Ascii(version) && Texts(item) && Numbers(item)
    ensures Flat(MacFields(version, item))
  {
  }

  /** The text determines every field but the mac, so that the fields may stand for it. */
  lemma MacTextInjective(version: string, a: Tombstone, b: Tombstone)
    requires Ascii(version) && Texts(a) && Texts(b) && Numbers(a) && Numbers(b)
    ensures MacText(version, a) == MacText(version, b) <==> a.(mac := "") == b.(mac := "")
  {
    MacFieldsFlat(version, a);
    MacFieldsFlat(version, b);
    FlatTexts(MacFields(version, a), MacFields(version, b));
    if MacFields(version, a) == MacFields(version, b) { FieldsInjective(version, a, b); }
  }

  /** Every item that passes the field checks has such a text. */
  lemma ValidHasText(item: Tombstone)
    requires ItemFieldsValid(item) && Hex64(item.scopeMac) && Safe(item.sequence)
    ensures Texts(item) && Numbers(item)
  {
    IdAscii(item.deletionId);
    KindAscii(item.scopeKind);
    HexAscii(item.scopeMac);
    KeyAscii(item.keyVersion);
  }

  lemma IdAscii(s: string)
    requires IdText(s)
    ensures Ascii(s)
  {
    forall i | 0 <= i < |s|
      ensures s[i] as int < 128
    {
      assert s[i] in s;
    }
  }

  lemma KeyAscii(s: string)
    requires KeyText(s)
    ensures Ascii(s)
  {
    forall i | 0 <= i < |s|
      ensures s[i] as int < 128
    {
      assert s[i] in s;
    }
  }

  lemma HexAscii(s: string)
    requires Hex64(s)
    ensures Ascii(s)
  {
    forall i | 0 <= i < |s|
      ensures s[i] as int < 128
    {
      assert s[i] in s;
    }
  }

  lemma KindAscii(s: string)
    requires s in SCOPE_KINDS
    ensures Ascii(s)
  {
  }

  /* ---- tampering ------------------------------------------------------------------ */

  /** Different inputs never have the same MAC, whatever the key versions. */
  ghost predicate NeverRepeats(keys: Keys) {
    forall v, i, w, j :: keys.mac(v, i) == keys.mac(w, j) ==> i == j
  }

  /** Two accepted replays with the same macs are the same. */
  lemma MacsDetermine(keys: Keys, watermark: int, head: int, items: seq<Tombstone>, others: seq<Tombstone>)
    requires NeverRepeats(keys)
    requires Acceptable(keys, watermark, head, items) && Acceptable(keys, watermark, head, others)
    requires forall i :: 0 <= i < |items| && i < |others| ==> items[i].mac == others[i].mac
    ensures items == others
  {
    forall i | 0 <= i < |items|
      ensures items[i] == others[i]
    {
      assert Authentic(keys, items[i]) && Authentic(keys, others[i]);
      assert items[i].(mac := "") == others[i].(mac := "");
    }
  }

  /** Change any fields of one item and keep its mac, or change the mac alone: the replay is refused. */
  lemma TamperingRefused(keys: Keys, watermark: int, head: int, items: seq<Tombstone>, i: nat, item: Tombstone)
    requires NeverRepeats(keys)
    requires Acceptable(keys, watermark, head, items) && i < |items| && item != items[i]
    requires item.mac == items[i].mac || item == items[i].(mac := item.mac)
    ensures !Acceptable(keys, watermark, head, items[i := item])
  {
    assert Authentic(keys, items[i]);
    var tampered := items[i := item];
    assert tampered[i] == item;
    assert item.mac != items[i].mac ==> item.(mac := "") == items[i].(mac := "");
    assert !Authentic(keys, tampered[i]);
  }

  /** An item under a key version that is not held is refused, and so is a run with an item missing, doubled or out of place. */
  lemma RearrangedRefused(keys: Keys, watermark: int, head: int, items: seq<Tombstone>, i: nat, j: nat)
    requires Acceptable(keys, watermark, head, items) && i < |items| && j < |items| && i != j
    ensures !Acceptable(keys, watermark, head, items[..i] + items[i + 1..])
    ensures !Acceptable(keys, watermark, head, items[i := items[j]])
    ensures !Acceptable(keys, watermark, head, items[i := items[j]][j := items[i]])
    ensures !Acceptable(Keys(keys.versions - {items[i].keyVersion}, keys.mac), watermark, head, items)
  {
    assert items[i := items[j]][i].sequence == watermark + 1 + j;
    assert items[i := items[j]][j := items[i]][j].sequence == watermark + 1 + i;
    assert !Authentic(Keys(keys.versions - {items[i].keyVersion}, keys.mac), items[i]);
  }
}
