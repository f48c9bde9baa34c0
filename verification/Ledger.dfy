/**
 The deletion ledger: concurrent appends behind a promise chain, and the verifier
 a restore runs over what it reads back.
 */
module Ledger {
  import opened Base

  datatype Tombstone = Tombstone(
    sequence: int,
    deletionId: string,
    scopeKind: string,
    scopeMac: string,
    deletionGeneration: int,
    deletedAt: int,
    keyVersion: string,
    mac: string)

  datatype Receipt = Receipt(sequence: int, durableHead: int, deletionId: string)

  datatype Deletion = Deletion(
    deletionId: string, scopeKind: string, scopeIdentifier: string, deletionGeneration: int, deletedAt: int)

  /** What is fed to the MAC: a scope or a whole tombstone without its mac. */
  datatype MacInput =
    | ScopeInput(kind: string, identifier: string)
    | TombstoneInput(item: Tombstone)

  /** TombstoneKeyProvider: the key versions it holds and the MAC under each. */
  datatype Keys = Keys(versions: set<string>, mac: (string, MacInput) -> string)

  const SCOPE_KINDS: set<string> := {"installation", "account_link", "push_token"}

  predicate Chars(s: string, allowed: char -> bool) {
    forall c :: c in s ==> allowed(c)
  }

  predicate LowerDigit(c: char) {
    'a' <= c <= 'z' || '0' <= c <= '9' || c == '_' || c == '-'
  }

  predicate IdText(s: string) {
    1 <= |s| <= 128 && Chars(s, c => LowerDigit(c) || c == ':')
  }

  predicate KeyText(s: string) {
    1 <= |s| <= 128 && Chars(s, LowerDigit)
  }

  predicate Hex64(s: string) {
    |s| == 64 && Chars(s, c => 'a' <= c <= 'f' || '0' <= c <= '9')
  }

  predicate Safe(n: int) {
    -MAX_SAFE <= n <= MAX_SAFE
  }

  predicate FieldsValid(deletionId: string, kind: string, generation: int, deletedAt: int, keyVersion: string) {
    && IdText(deletionId)
    && kind in SCOPE_KINDS
    && Safe(generation) && generation >= 1
    && Safe(deletedAt) && deletedAt >= 1
    && KeyText(keyVersion)
  }

  predicate ItemFieldsValid(item: Tombstone) {
    FieldsValid(item.deletionId, item.scopeKind, item.deletionGeneration, item.deletedAt, item.keyVersion)
  }

  function Mac(keys: Keys, version: string, input: MacInput): Result<string> {
    if version in keys.versions then Ok(keys.mac(version, input)) else Err("missing tombstone key version")
  }

  function Unsigned(item: Tombstone): MacInput {
    TombstoneInput(item.(mac := ""))
  }

  function Verify(keys: Keys, item: Tombstone): Result<bool> {
    var expected :- Mac(keys, item.keyVersion, Unsigned(item));
    Ok(Hex64(item.mac) && item.mac == expected)
  }

  /** The seal callback of appendDeletionTombstone. */
  function Seal(keys: Keys, d: Deletion, keyVersion: string, scopeMac: string, sequence: int): Result<Tombstone> {
    var unsigned := Tombstone(sequence, d.deletionId, d.scopeKind, scopeMac, d.deletionGeneration, d.deletedAt, keyVersion, "");
    var mac :- Mac(keys, keyVersion, TombstoneInput(unsigned));
    Ok(unsigned.(mac := mac))
  }

  /* ---- interleaved appends ---------------------------------------------- */

  type Caller = nat

  datatype Waiting = Waiting(caller: Caller, deletionId: string)

  /** The call between `await previous` and the settlement of its seal. */
  datatype Inside = Inside(caller: Caller, deletionId: string, sequence: int)

  datatype Answer = Answer(deletionId: string, item: Tombstone, receipt: Receipt)

  /** `waiting` is the promise chain: each call resumes when its predecessor releases. */
  datatype Book = Book(
    items: seq<Tombstone>,
    byId: map<string, Tombstone>,
    waiting: seq<Waiting>,
    inside: Option<Inside>,
    answers: map<Caller, Answer>)

  const EMPTY_BOOK := Book([], map[], [], None, map[])

  function ReceiptFor(item: Tombstone, head: int): Receipt {
    Receipt(item.sequence, head, item.deletionId)
  }

  datatype Step =
    | Call(caller: Caller, deletionId: string)
    | Enter
    | SealReturns(item: Tombstone)
    | SealThrows

  function Answered(b: Book, caller: Caller, id: string, item: Tombstone): Book {
    b.(inside := None, answers := b.answers[caller := Answer(id, item, ReceiptFor(item, |b.items|))])
  }

  function Next(b: Book, step: Step): Book {
    match step
    case Call(caller, id) => b.(waiting := b.waiting + [Waiting(caller, id)])
    case Enter =>
      if b.inside.Some? || b.waiting == [] then b
      else
        var w := b.waiting[0];
        var b1 := b.(waiting := b.waiting[1..]);
        if w.deletionId in b.byId then Answered(b1, w.caller, w.deletionId, b.byId[w.deletionId])
        else b1.(inside := Some(Inside(w.caller, w.deletionId, |b.items| + 1)))
    case SealReturns(item) =>
      if b.inside.None? then b
      else if item.sequence != |b.items| + 1 || item.deletionId != b.inside.value.deletionId then b.(inside := None)
      else
        Answered(b.(items := b.items + [item], byId := b.byId[item.deletionId := item]),
                 b.inside.value.caller, b.inside.value.deletionId, item)
    case SealThrows => b.(inside := None)
  }

  /** Gap free, one item per deletion id, and the index lists exactly the items. */
  ghost predicate Canonical(items: seq<Tombstone>, byId: map<string, Tombstone>) {
    && (forall i :: 0 <= i < |items| ==> items[i].sequence == i + 1)
    && (forall i, j :: 0 <= i < j < |items| ==> items[i].deletionId != items[j].deletionId)
    && (forall i :: 0 <= i < |items| ==> items[i].deletionId in byId && byId[items[i].deletionId] == items[i])
    && (forall id :: id in byId ==> byId[id] in items && byId[id].deletionId == id)
  }

  /** An answer names the item the index holds for its id, and a head that reaches it. */
  ghost predicate AnswerFits(b: Book, a: Answer) {
    && a.deletionId in b.byId && a.item == b.byId[a.deletionId]
    && a.receipt.deletionId == a.deletionId
    && a.receipt.sequence == a.item.sequence
    && 1 <= a.item.sequence <= a.receipt.durableHead <= |b.items|
  }

  ghost predicate BookInv(b: Book) {
    && Canonical(b.items, b.byId)
    && (b.inside.Some? ==> b.inside.value.deletionId !in b.byId && b.inside.value.sequence == |b.items| + 1)
    && (forall c :: c in b.answers ==> AnswerFits(b, b.answers[c]))
  }

  lemma AppendCanonical(items: seq<Tombstone>, byId: map<string, Tombstone>, item: Tombstone)
    requires Canonical(items, byId) && item.sequence == |items| + 1 && item.deletionId !in byId
    ensures Canonical(items + [item], byId[item.deletionId := item])
  {
    var items', byId' := items + [item], byId[item.deletionId := item];
    assert forall i :: 0 <= i < |items| ==> items'[i] == items[i];
    forall id | id in byId'
      ensures byId'[id] in items' && byId'[id].deletionId == id
    {
      if id == item.deletionId { assert items'[|items|] == item; }
      else { assert byId[id] in items; }
    }
  }

  lemma IndexedSequence(b: Book, id: string)
    requires Canonical(b.items, b.byId) && id in b.byId
    ensures 1 <= b.byId[id].sequence <= |b.items|
  {
    var i :| 0 <= i < |b.items| && b.items[i] == b.byId[id];
  }

  lemma NextKeeps(b: Book, step: Step)
    requires BookInv(b)
    ensures BookInv(Next(b, step))
    ensures b.items <= Next(b, step).items
  {
    match step
    case Call(_, _) =>
    case Enter =>
      if b.inside.None? && b.waiting != [] && b.waiting[0].deletionId in b.byId {
        IndexedSequence(b, b.waiting[0].deletionId);
      }
    case SealReturns(item) =>
      if b.inside.Some? && item.sequence == |b.items| + 1 && item.deletionId == b.inside.value.deletionId {
        AppendCanonical(b.items, b.byId, item);
      }
    case SealThrows =>
  }

  function Run(steps: seq<Step>): Book {
    if steps == [] then EMPTY_BOOK else Next(Run(steps[..|steps| - 1]), steps[|steps| - 1])
  }

  /** Whatever the interleaving, the ledger is gap free, duplicate free and agrees with its index. */
  lemma {:induction false} RunKeeps(steps: seq<Step>)
    ensures BookInv(Run(steps))
  {
    if steps != [] {
      RunKeeps(steps[..|steps| - 1]);
      NextKeeps(Run(steps[..|steps| - 1]), steps[|steps| - 1]);
    }
  }

  /** The ledger only grows. */
  lemma {:induction false} RunGrows(steps: seq<Step>, k: nat)
    requires k <= |steps|
    ensures Run(steps[..k]).items <= Run(steps).items
  {
    if k == |steps| {
      assert steps[..k] == steps;
    } else {
      var init := steps[..|steps| - 1];
      assert init[..k] == steps[..k];
      RunGrows(init, k);
      RunKeeps(init);
      NextKeeps(Run(init), steps[|steps| - 1]);
    }
  }

  /** An indexed item stays indexed under its id. */
  lemma {:induction false} IndexGrows(steps: seq<Step>, k: nat, id: string)
    requires k <= |steps| && id in Run(steps[..k]).byId
    ensures id in Run(steps).byId && Run(steps).byId[id] == Run(steps[..k]).byId[id]
  {
    RunGrows(steps, k);
    RunKeeps(steps[..k]);
    RunKeeps(steps);
    var item := Run(steps[..k]).byId[id];
    var i :| 0 <= i < |Run(steps[..k]).items| && Run(steps[..k]).items[i] == item;
    assert Run(steps).items[i] == item;
  }

  /** All calls for one deletion id, at any two points of a run, are answered with the same item. */
  lemma RepeatedAppendsAgree(steps: seq<Step>, k: nat, c: Caller, d: Caller)
    requires k <= |steps|
    requires c in Run(steps[..k]).answers && d in Run(steps).answers
    requires Run(steps[..k]).answers[c].deletionId == Run(steps).answers[d].deletionId
    ensures Run(steps[..k]).answers[c].item == Run(steps).answers[d].item
  {
    RunKeeps(steps[..k]);
    RunKeeps(steps);
    assert AnswerFits(Run(steps[..k]), Run(steps[..k]).answers[c]);
    assert AnswerFits(Run(steps), Run(steps).answers[d]);
    IndexGrows(steps, k, Run(steps).answers[d].deletionId);
  }

  /** The receipt check that closes appendDeletionTombstone. */
  predicate ReceiptConsistent(a: Answer) {
    && a.item.deletionId == a.deletionId
    && a.receipt.deletionId == a.deletionId
    && a.receipt.sequence == a.item.sequence
    && a.receipt.durableHead >= a.receipt.sequence
  }

  lemma ReceiptsConsistent(steps: seq<Step>, c: Caller)
    requires c in Run(steps).answers
    ensures ReceiptConsistent(Run(steps).answers[c])
  {
    RunKeeps(steps);
    assert AnswerFits(Run(steps), Run(steps).answers[c]);
  }

  /* ---- the class ---------------------------------------------------------- */

  class InMemoryDeletionLedger {
    var items: seq<Tombstone>
    var byDeletionId: map<string, Tombstone>

    ghost predicate Valid()
      reads this
    {
      Canonical(items, byDeletionId)
    }

    constructor ()
      ensures Valid() && items == []
    {
      items, byDeletionId := [], map[];
    }

    /** The part of append that runs between its predecessor's release and its own. */
    method Append(deletionId: string, seal: int -> Result<Tombstone>) returns (r: Result<(Tombstone, Receipt)>)
      requires Valid()
      modifies this
      ensures Valid()
      ensures r.Ok? ==>
        && deletionId in byDeletionId && r.value.0 == byDeletionId[deletionId]
        && r.value.1 == Receipt(r.value.0.sequence, |items|, r.value.0.deletionId)
      ensures deletionId in old(byDeletionId) ==> r.Ok? && items == old(items) && byDeletionId == old(byDeletionId)
      ensures deletionId !in old(byDeletionId) && r.Ok? ==>
        && seal(|old(items)| + 1) == Ok(r.value.0)
        && items == old(items) + [r.value.0]
        && byDeletionId == old(byDeletionId)[deletionId := r.value.0]
      ensures deletionId !in old(byDeletionId) && r.Err? ==>
        items == old(items) && byDeletionId == old(byDeletionId)
      ensures r.Err? <==>
        && deletionId !in old(byDeletionId)
        && var sealed := seal(|old(items)| + 1);
           sealed.Err? || sealed.value.sequence != |old(items)| + 1 || sealed.value.deletionId != deletionId
    {
      if deletionId in byDeletionId {
        return Ok((byDeletionId[deletionId], ReceiptFor(byDeletionId[deletionId], |items|)));
      }
      var sealed := seal(|items| + 1);
      if sealed.Err? {
        return Err(sealed.reason);
      }
      var item := sealed.value;
      if item.sequence != |items| + 1 || item.deletionId != deletionId {
        return Err("ledger adapter rejected noncanonical append");
      }
      AppendCanonical(items, byDeletionId, item);
      items := items + [item];
      byDeletionId := byDeletionId[deletionId := item];
      return Ok((item, ReceiptFor(item, |items|)));
    }

    method ReadRange(after: int, through: int) returns (r: seq<Tombstone>)
      requires Valid()
      ensures r == Range(items, after, through)
      ensures 0 <= after <= through <= |items| ==> r == items[after..through]
    {
      r := Range(items, after, through);
      if 0 <= after <= through <= |items| {
        RangeIsSlice(items, after, through);
      }
    }
  }

  function Range(items: seq<Tombstone>, after: int, through: int): seq<Tombstone> {
    if items == [] then []
    else
      var last := items[|items| - 1];
      Range(items[..|items| - 1], after, through) + if after < last.sequence <= through then [last] else []
  }

  lemma {:induction false} RangeIsSlice(items: seq<Tombstone>, after: int, through: int)
    requires forall i :: 0 <= i < |items| ==> items[i].sequence == i + 1
    requires 0 <= after <= through
    ensures Range(items, after, through) ==
      if |items| <= after then [] else items[after..if through < |items| then through else |items|]
  {
    if items != [] {
      RangeIsSlice(items[..|items| - 1], after, through);
    }
  }

  /* ---- verification of a replay -------------------------------------------- */

  /** Valid fields under the MAC of everything but the mac itself, made with a key version that is held. */
  predicate Authentic(keys: Keys, item: Tombstone) {
    && ItemFieldsValid(item)
    && Hex64(item.scopeMac) && Hex64(item.mac)
    && item.keyVersion in keys.versions
    && item.mac == keys.mac(item.keyVersion, TombstoneInput(item.(mac := "")))
  }

  /** A contiguous, duplicate-free, authentic run of items from the watermark to the head. */
  predicate Acceptable(keys: Keys, watermark: int, head: int, items: seq<Tombstone>) {
    && 0 <= watermark <= head && Safe(watermark) && Safe(head)
    && |items| == head - watermark
    && (forall i :: 0 <= i < |items| ==> items[i].sequence == watermark + 1 + i)
    && (forall i, j :: 0 <= i < j < |items| ==> items[i].deletionId != items[j].deletionId)
    && (forall i :: 0 <= i < |items| ==> Authentic(keys, items[i]))
  }

  /** What the verifier has established about the items it has passed. */
  predicate Passed(keys: Keys, watermark: int, items: seq<Tombstone>) {
    && (forall i :: 0 <= i < |items| ==> items[i].sequence == watermark + 1 + i && Safe(items[i].sequence))
    && (forall i, j :: 0 <= i < j < |items| ==> items[i].deletionId != items[j].deletionId)
    && (forall i :: 0 <= i < |items| ==> Authentic(keys, items[i]))
  }

  /**
   verifyTombstoneReplay: accepts an answer of a ledger port exactly when it is a contiguous,
   duplicate-free run of valid items, each under its own MAC, and hands back what it read. */
  method VerifyTombstoneReplay(keys: Keys, watermark: int, head: int, items: seq<Tombstone>)
    returns (r: Result<(int, seq<Tombstone>)>)
    ensures r.Ok? <==>
      && 0 <= watermark <= head <= MAX_SAFE && |items| == head - watermark
      && (forall i :: 0 <= i < |items| ==> items[i].sequence == watermark + 1 + i)
      && (forall i, j :: 0 <= i < j < |items| ==> items[i].deletionId != items[j].deletionId)
      && (forall i :: 0 <= i < |items| ==> ItemFieldsValid(items[i]) && Hex64(items[i].scopeMac) && Hex64(items[i].mac))
      && (forall i :: 0 <= i < |items| ==>
            && items[i].keyVersion in keys.versions
            && items[i].mac == keys.mac(items[i].keyVersion, TombstoneInput(items[i].(mac := ""))))
    ensures r.Ok? <==> Acceptable(keys, watermark, head, items)
    ensures r.Ok? ==> r.value == (head, items)
  {
    if !Safe(watermark) || watermark < 0 {
      return Err("backup watermark is invalid");
    }
    if !Safe(head) || head < 0 {
      return Err("ledger head is corrupt");
    }
    if head < watermark {
      return Err("ledger head is stale");
    }
    var expected := watermark + 1;
    var seen: set<string> := {};
    for k := 0 to |items|
      invariant expected == watermark + 1 + k
      invariant seen == set i | 0 <= i < k :: items[i].deletionId
      invariant Passed(keys, watermark, items[..k])
    {
      var item := items[k];
      assert items[..k + 1][k] == item;
      if Acceptable(keys, watermark, head, items) { AcceptableItem(keys, watermark, head, items, k); }
      if !ItemFieldsValid(item) {
        return Err("deletion tombstone fields are invalid");
      }
      if !Safe(item.sequence) || item.sequence < 1 || !Hex64(item.scopeMac) || !Hex64(item.mac) {
        return Err("deletion ledger item is corrupt");
      }
      if item.sequence != expected {
        return Err("deletion ledger sequence gap");
      }
      if item.deletionId in seen {
        return Err("deletion ledger contains a duplicate deletion ID");
      }
      seen := seen + {item.deletionId};
      var valid := Verify(keys, item);
      if valid.Err? {
        return Err(valid.reason);
      }
      if !valid.value {
        return Err("tombstone MAC is invalid");
      }
      expected := expected + 1;
      PassedMore(keys, watermark, items, k);
    }
    assert items[..|items|] == items;
    if expected != head + 1 {
      return Err("deletion ledger sequence gap");
    }
    return Ok((head, items));
  }

  lemma AcceptableItem(keys: Keys, watermark: int, head: int, items: seq<Tombstone>, k: nat)
    requires Acceptable(keys, watermark, head, items) && k < |items|
    ensures Authentic(keys, items[k]) && items[k].sequence == watermark + 1 + k && 1 <= items[k].sequence && Safe(items[k].sequence)
    ensures items[k].deletionId !in set i | 0 <= i < k :: items[i].deletionId
  {
  }

  lemma PassedMore(keys: Keys, watermark: int, items: seq<Tombstone>, k: nat)
    requires k < |items| && Passed(keys, watermark, items[..k])
    requires Authentic(keys, items[k]) && items[k].sequence == watermark + 1 + k && Safe(items[k].sequence)
    requires items[k].deletionId !in set i | 0 <= i < k :: items[i].deletionId
    ensures Passed(keys, watermark, items[..k + 1])
  {
    var before, after := items[..k], items[..k + 1];
    assert after == before + [items[k]];
    forall i | 0 <= i < k
      ensures before[i].deletionId != items[k].deletionId
    {
      assert before[i] == items[i];
    }
  }

  /* ---- honest ledgers are accepted ------------------------------------------- */

  /** HMAC-SHA-256 in hexadecimal. */
  ghost predicate HexMacs(keys: Keys) {
    forall v, input :: Hex64(keys.mac(v, input))
  }

  /** Every seal that returned was the one appendDeletionTombstone passes. */
  ghost predicate HonestSeals(keys: Keys, steps: seq<Step>) {
    forall i :: 0 <= i < |steps| && steps[i].SealReturns? ==> HonestItem(keys, steps[i].item)
  }

  ghost predicate HonestItem(keys: Keys, item: Tombstone) {
    exists d: Deletion, v: string ::
      && FieldsValid(d.deletionId, d.scopeKind, d.deletionGeneration, d.deletedAt, v)
      && v in keys.versions
      && Seal(keys, d, v, keys.mac(v, ScopeInput(d.scopeKind, d.scopeIdentifier)), item.sequence) == Ok(item)
  }

  lemma HonestIsAuthentic(keys: Keys, item: Tombstone)
    requires HexMacs(keys) && HonestItem(keys, item)
    ensures Authentic(keys, item)
  {
    var d: Deletion, v: string :|
      && FieldsValid(d.deletionId, d.scopeKind, d.deletionGeneration, d.deletedAt, v)
      && v in keys.versions
      && Seal(keys, d, v, keys.mac(v, ScopeInput(d.scopeKind, d.scopeIdentifier)), item.sequence) == Ok(item);
    assert item.(mac := "") == Tombstone(item.sequence, d.deletionId, d.scopeKind,
      keys.mac(v, ScopeInput(d.scopeKind, d.scopeIdentifier)), d.deletionGeneration, d.deletedAt, v, "");
  }

  lemma {:induction false} HonestItems(keys: Keys, steps: seq<Step>, i: nat)
    requires HonestSeals(keys, steps) && i < |Run(steps).items|
    ensures HonestItem(keys, Run(steps).items[i])
  {
    if steps != [] {
      var init, last := steps[..|steps| - 1], steps[|steps| - 1];
      RunKeeps(init);
      NextKeeps(Run(init), last);
      assert forall j :: 0 <= j < |init| ==> init[j] == steps[j];
      if i < |Run(init).items| { HonestItems(keys, init, i); }
    }
  }

  /**
   A replay that reads the head at one point of a run and the range at a later one is
   accepted, and returns exactly the items that followed the watermark when the head was read. */
  lemma HonestReplayAccepted(keys: Keys, steps: seq<Step>, k: nat, watermark: nat)
    requires HexMacs(keys) && HonestSeals(keys, steps) && k <= |steps|
    requires watermark <= |Run(steps[..k]).items| <= MAX_SAFE
    ensures var head, read := |Run(steps[..k]).items|, Range(Run(steps).items, watermark, |Run(steps[..k]).items|);
      && Acceptable(keys, watermark, head, read)
      && read == Run(steps[..k]).items[watermark..]
  {
    var items, head := Run(steps).items, |Run(steps[..k]).items|;
    RunKeeps(steps);
    RunGrows(steps, k);
    RangeIsSlice(items, watermark, head);
    forall i | 0 <= i < |items|
      ensures Authentic(keys, items[i])
    {
      HonestItems(keys, steps, i);
      HonestIsAuthentic(keys, items[i]);
    }
    assert Run(steps[..k]).items == items[..head];
    SliceAcceptable(keys, items, Run(steps).byId, watermark, head);
    assert items[..head][watermark..] == items[watermark..head];
  }

  lemma SliceAcceptable(keys: Keys, items: seq<Tombstone>, byId: map<string, Tombstone>, watermark: nat, head: nat)
    requires Canonical(items, byId) && watermark <= head <= |items| && head <= MAX_SAFE
    requires forall i :: 0 <= i < |items| ==> Authentic(keys, items[i])
    ensures Acceptable(keys, watermark, head, items[watermark..head])
  {
    var read := items[watermark..head];
    assert forall i :: 0 <= i < |read| ==> read[i] == items[watermark + i];
  }
}
