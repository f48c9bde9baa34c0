/** Replaying the same items again changes nothing but the clock. */
module RestoreIdempotence {
  import opened Base
  import opened Dispatch
  import opened Ledger
  import opened Restore

  /** No fence has anything left to do on the row. */
  predicate SettledRow(r: OutboxRow) {
    && r.state != Pending && r.state != Leased && r.state != SubmissionStarted
    && r.scope == Coalesce(r.scope, r.link)
  }

  predicate SettledPermit(p: PermitRow) {
    !LivePermit(p) && p.scope == Coalesce(p.scope, p.link)
  }

  lemma SettledRowFixed(target: Scope, permits: map<Id, PermitRow>, t: Time, o: Id, r: OutboxRow)
    requires SettledRow(r)
    ensures FenceRow(target, permits, true, t, o, r) == r
  {
  }

  lemma SettledPermitFixed(target: Scope, t: Time, p: PermitRow)
    requires SettledPermit(p)
    ensures FencePermit(target, true, t, p) == p
  {
  }

  /** What erasing an installation leaves. */
  ghost predicate InstallationErased(db: Db, x: Id, generation: int) {
    && x in db.installations && db.installations[x].state == Inactive && db.installations[x].generation >= generation
    && x !in db.tokens
    && (forall l :: l in db.links ==> db.links[l].installation != x)
    && (forall o :: o in db.outbox && db.outbox[o].installation == x ==> SettledRow(db.outbox[o]))
    && (forall p :: p in db.permits && db.permits[p].installation == x ==> SettledPermit(db.permits[p]))
  }

  /** The item has nothing left to erase. */
  ghost predicate Erased(v: Vault, item: Tombstone) {
    && (item.scopeKind == "installation" && item.scopeMac in v.installationOf
        && v.installationOf[item.scopeMac] in v.db.installations ==>
          InstallationErased(v.db, v.installationOf[item.scopeMac], item.deletionGeneration))
    && (item.scopeKind == "account_link" ==> item.scopeMac !in v.linkOf)
  }

  /* ---- erasing settles --------------------------------------------------------- */

  lemma EraseInstallationSettles(v: Vault, x: Id, generation: int, t: Time)
    requires x in v.db.installations
    ensures InstallationErased(EraseInstallation(v, x, generation, t).db, x, generation)
  {
    var fenced := Fence(v.db, OfInstallation(x), true, t, t);
    assert forall o :: o in fenced.outbox && fenced.outbox[o].installation == x ==> SettledRow(fenced.outbox[o]);
    assert forall p :: p in fenced.permits && fenced.permits[p].installation == x ==> SettledPermit(fenced.permits[p]);
    DropKeepsSettled(fenced, LinksOf(fenced, x), x);
  }

  ghost predicate RowsSettled(db: Db, x: Id) {
    && (forall o :: o in db.outbox && db.outbox[o].installation == x ==> SettledRow(db.outbox[o]))
    && (forall p :: p in db.permits && db.permits[p].installation == x ==> SettledPermit(db.permits[p]))
  }

  lemma DropKeepsSettled(db: Db, gone: set<Id>, x: Id)
    requires RowsSettled(db, x)
    ensures RowsSettled(DropLinks(db, gone), x)
  {
  }

  lemma FenceKeepsSettled(db: Db, target: Scope, t: Time, x: Id)
    requires RowsSettled(db, x)
    ensures RowsSettled(Fence(db, target, true, t, t), x)
  {
    var after := Fence(db, target, true, t, t);
    forall o | o in after.outbox && after.outbox[o].installation == x
      ensures SettledRow(after.outbox[o])
    {
      SettledRowFixed(target, db.permits, t, o, db.outbox[o]);
    }
    forall p | p in after.permits && after.permits[p].installation == x
      ensures SettledPermit(after.permits[p])
    {
      SettledPermitFixed(target, t, db.permits[p]);
    }
  }

  lemma EraseSettles(v: Vault, item: Tombstone, t: Time)
    ensures Erased(Erase(v, item, t), item)
  {
    if item.scopeKind == "installation" && item.scopeMac in v.installationOf && v.installationOf[item.scopeMac] in v.db.installations {
      EraseInstallationSettles(v, v.installationOf[item.scopeMac], item.deletionGeneration, t);
    }
  }

  /* ---- and nothing unsettles ------------------------------------------------------ */

  lemma InstallationStaysErased(v: Vault, other: Tombstone, t: Time, x: Id, generation: int)
    requires InstallationErased(v.db, x, generation)
    ensures InstallationErased(Erase(v, other, t).db, x, generation)
  {
    if other.scopeKind == "installation" && other.scopeMac in v.installationOf && v.installationOf[other.scopeMac] in v.db.installations {
      var y := v.installationOf[other.scopeMac];
      FenceKeepsSettled(v.db, OfInstallation(y), t, x);
      var fenced := Fence(v.db, OfInstallation(y), true, t, t);
      DropKeepsSettled(fenced, LinksOf(fenced, y), x);
      assert RowsSettled(EraseInstallation(v, y, other.deletionGeneration, t).db, x);
    } else if other.scopeKind == "account_link" && other.scopeMac in v.linkOf {
      var l := v.linkOf[other.scopeMac];
      FenceKeepsSettled(v.db, OfLink(l), t, x);
      DropKeepsSettled(Fence(v.db, OfLink(l), true, t, t), {l}, x);
      assert RowsSettled(EraseLink(v, l, t).db, x);
    }
  }

  lemma StaysErased(v: Vault, item: Tombstone, other: Tombstone, t: Time)
    requires Erased(v, item)
    ensures Erased(Erase(v, other, t), item)
  {
    if item.scopeKind == "installation" && item.scopeMac in v.installationOf && v.installationOf[item.scopeMac] in v.db.installations {
      InstallationStaysErased(v, other, t, v.installationOf[item.scopeMac], item.deletionGeneration);
    }
    assert Erase(v, other, t).db.installations.Keys == v.db.installations.Keys;
  }

  /* ---- an erased item is a fixed point ------------------------------------------------ */

  function ClockFree(v: Vault): Vault {
    v.(db := v.db.(clock := 0))
  }

  lemma FenceFixed(db: Db, x: Id, t: Time)
    requires RowsSettled(db, x)
    ensures Fence(db, OfInstallation(x), true, t, t) == db.(clock := t)
  {
    var after := Fence(db, OfInstallation(x), true, t, t);
    forall o | o in db.outbox
      ensures after.outbox[o] == db.outbox[o]
    {
      if db.outbox[o].installation == x { SettledRowFixed(OfInstallation(x), db.permits, t, o, db.outbox[o]); }
    }
    forall p | p in db.permits
      ensures after.permits[p] == db.permits[p]
    {
      if db.permits[p].installation == x { SettledPermitFixed(OfInstallation(x), t, db.permits[p]); }
    }
    assert after.outbox == db.outbox && after.permits == db.permits;
  }

  lemma DropNothing(db: Db)
    ensures DropLinks(db, {}) == db
  {
    var after := DropLinks(db, {});
    assert after.links == db.links && after.outbox == db.outbox && after.permits == db.permits;
  }

  lemma EraseErased(v: Vault, item: Tombstone, t: Time)
    requires Erased(v, item)
    ensures ClockFree(Erase(v, item, t)) == ClockFree(v)
  {
    if item.scopeKind == "installation" && item.scopeMac in v.installationOf && v.installationOf[item.scopeMac] in v.db.installations {
      var x := v.installationOf[item.scopeMac];
      FenceFixed(v.db, x, t);
      var fenced := v.db.(clock := t);
      assert LinksOf(fenced, x) == {};
      DropNothing(fenced);
      var u := EraseInstallation(v, x, item.deletionGeneration, t);
      assert u.db.tokens == v.db.tokens;
      assert u.db.installations == v.db.installations;
      assert u.linkOf == v.linkOf && u.keyVersions == v.keyVersions;
    }
  }

  /* ---- tombstone rows --------------------------------------------------------------------- */

  ghost predicate Recorded(rows: map<string, TombstoneRow>, item: Tombstone, head: int) {
    && item.deletionId in rows
    && SameTombstone(rows[item.deletionId], item, item.sequence)
    && rows[item.deletionId].durableHead >= head
  }

  lemma RecordRecords(rows: map<string, TombstoneRow>, item: Tombstone, head: int)
    requires RecordTombstone(rows, item, head).Some?
    ensures Recorded(RecordTombstone(rows, item, head).value, item, head)
  {
  }

  lemma StaysRecorded(rows: map<string, TombstoneRow>, item: Tombstone, other: Tombstone, head: int)
    requires Recorded(rows, item, head) && RecordTombstone(rows, other, head).Some?
    ensures Recorded(RecordTombstone(rows, other, head).value, item, head)
  {
  }

  lemma RecordRecorded(rows: map<string, TombstoneRow>, item: Tombstone, head: int)
    requires Recorded(rows, item, head)
    ensures RecordTombstone(rows, item, head) == Some(rows)
  {
    assert rows[item.deletionId := rows[item.deletionId]] == rows;
  }

  /* ---- the whole loop ------------------------------------------------------------------------ */

  ghost predicate Done(v: Vault, item: Tombstone, head: int) {
    Erased(v, item) && Recorded(v.tombstones, item, head)
  }

  lemma ErasedIgnoresTombstones(v: Vault, item: Tombstone, rows: map<string, TombstoneRow>)
    requires Erased(v, item)
    ensures Erased(v.(tombstones := rows), item)
  {
  }

  lemma ErasedIgnoresClock(v: Vault, u: Vault, item: Tombstone)
    requires Erased(v, item) && ClockFree(u) == ClockFree(v)
    ensures Erased(u, item)
  {
    assert u.db.installations == ClockFree(u).db.installations && u.db.links == ClockFree(u).db.links;
    assert u.db.outbox == ClockFree(u).db.outbox && u.db.permits == ClockFree(u).db.permits && u.db.tokens == ClockFree(u).db.tokens;
  }

  lemma EraseKeepsTombstones(v: Vault, item: Tombstone, t: Time)
    ensures Erase(v, item, t).tombstones == v.tombstones
  {
  }

  lemma ItemDone(v: Vault, item: Tombstone, head: int, t: Time)
    requires ReplayItem(v, item, head, t).Some?
    ensures Done(ReplayItem(v, item, head, t).value, item, head)
  {
    EraseSettles(v, item, t);
    RecordRecords(v.tombstones, item, head);
    ErasedIgnoresTombstones(Erase(v, item, t), item, RecordTombstone(v.tombstones, item, head).value);
  }

  lemma StaysDone(v: Vault, item: Tombstone, other: Tombstone, head: int, t: Time)
    requires Done(v, item, head) && ReplayItem(v, other, head, t).Some?
    ensures Done(ReplayItem(v, other, head, t).value, item, head)
  {
    StaysErased(v, item, other, t);
    StaysRecorded(v.tombstones, item, other, head);
    ErasedIgnoresTombstones(Erase(v, other, t), item, RecordTombstone(v.tombstones, other, head).value);
  }

  lemma {:induction false} StaysDoneThrough(v: Vault, item: Tombstone, items: seq<Tombstone>, head: int, t: Time)
    requires Done(v, item, head) && ReplayAll(v, items, head, t).Some?
    ensures Done(ReplayAll(v, items, head, t).value, item, head)
    decreases |items|
  {
    if items != [] {
      StaysDone(v, item, items[0], head, t);
      StaysDoneThrough(ReplayItem(v, items[0], head, t).value, item, items[1..], head, t);
    }
  }

  lemma {:induction false} AllDone(v: Vault, items: seq<Tombstone>, head: int, t: Time)
    requires ReplayAll(v, items, head, t).Some?
    ensures forall i :: 0 <= i < |items| ==> Done(ReplayAll(v, items, head, t).value, items[i], head)
    decreases |items|
  {
    if items != [] {
      var v1 := ReplayItem(v, items[0], head, t).value;
      ItemDone(v, items[0], head, t);
      StaysDoneThrough(v1, items[0], items[1..], head, t);
      AllDone(v1, items[1..], head, t);
      assert forall i :: 1 <= i < |items| ==> items[i] == items[1..][i - 1];
    }
  }

  lemma {:induction false} DoneIsFixed(v: Vault, items: seq<Tombstone>, head: int, t: Time)
    requires forall i :: 0 <= i < |items| ==> Done(v, items[i], head)
    ensures ReplayAll(v, items, head, t).Some?
    ensures ClockFree(ReplayAll(v, items, head, t).value) == ClockFree(v)
    decreases |items|
  {
    if items != [] {
      RecordRecorded(v.tombstones, items[0], head);
      EraseErased(v, items[0], t);
      EraseKeepsTombstones(v, items[0], t);
      var v1 := ReplayItem(v, items[0], head, t).value;
      assert ClockFree(v1) == ClockFree(v);
      forall i | 0 <= i < |items[1..]|
        ensures Done(v1, items[1..][i], head)
      {
        assert Done(v, items[i + 1], head);
        ErasedIgnoresClock(v, v1, items[i + 1]);
      }
      DoneIsFixed(v1, items[1..], head, t);
    }
  }

  /** Replaying a second time, whenever, succeeds and changes nothing but the clock. */
  lemma ReplayIdempotent(v: Vault, items: seq<Tombstone>, head: int, t1: Time, t2: Time)
    requires ReplayAll(v, items, head, t1).Some?
    ensures var once := ReplayAll(v, items, head, t1).value;
      var twice := ReplayAll(once, items, head, t2);
      twice.Some? && ClockFree(twice.value) == ClockFree(once)
  {
    AllDone(v, items, head, t1);
    DoneIsFixed(ReplayAll(v, items, head, t1).value, items, head, t2);
  }

  /** A replayed installation keeps no outbox row that could be sent and no live permit. */
  lemma ReplayQuiets(v: Vault, items: seq<Tombstone>, head: int, t: Time, i: nat, p: Id)
    requires ReplayAll(v, items, head, t).Some? && i < |items| && items[i].scopeKind == "installation"
    requires var u := ReplayAll(v, items, head, t).value;
      && items[i].scopeMac in u.installationOf && u.installationOf[items[i].scopeMac] in u.db.installations
      && p in u.db.permits && u.db.permits[p].installation == u.installationOf[items[i].scopeMac]
    ensures !LivePermit(ReplayAll(v, items, head, t).value.db.permits[p])
  {
    AllDone(v, items, head, t);
    assert Done(ReplayAll(v, items, head, t).value, items[i], head);
  }
}
