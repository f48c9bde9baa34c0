/** What loading a backup, replaying one item and opening the service again leave, column by column. */
module RestoreEffects {
  import opened Base
  import opened Dispatch
  import opened Ledger
  import opened Restore

  /* ---- tombstone rows ------------------------------------------------------------ */

  /** A new deletion id is inserted; a known one is accepted exactly when it repeats the row, which then keeps the higher durable head; anything else rolls back. */
  lemma RecordExactly(rows: map<string, TombstoneRow>, item: Tombstone, head: int)
    ensures RecordTombstone(rows, item, head).None? <==>
      && item.deletionId in rows
      && var row := rows[item.deletionId];
      !(&& row.kind == item.scopeKind && row.scopeMac == item.scopeMac && row.generation == item.deletionGeneration
        && row.sequence == item.sequence && row.keyVersion == item.keyVersion)
    ensures RecordTombstone(rows, item, head).Some? ==>
      var after := RecordTombstone(rows, item, head).value;
      && item.deletionId in after && after == rows[item.deletionId := after[item.deletionId]]
      && var row := after[item.deletionId];
      && row.kind == item.scopeKind && row.scopeMac == item.scopeMac && row.generation == item.deletionGeneration
      && row.sequence == item.sequence && row.keyVersion == item.keyVersion
      && row.durableHead >= head
      && (if item.deletionId in rows then row.durableHead in {head, rows[item.deletionId].durableHead} && row.durableHead >= rows[item.deletionId].durableHead
          else row.durableHead == head)
  {
  }

  /** The row of a replayed item. */
  predicate IsRecorded(rows: map<string, TombstoneRow>, item: Tombstone, head: int) {
    && item.deletionId in rows
    && var row := rows[item.deletionId];
    && row.kind == item.scopeKind && row.scopeMac == item.scopeMac && row.generation == item.deletionGeneration
    && row.sequence == item.sequence && row.keyVersion == item.keyVersion && row.durableHead >= head
  }

  lemma StaysRecorded(rows: map<string, TombstoneRow>, item: Tombstone, other: Tombstone, head: int)
    requires IsRecorded(rows, item, head) && RecordTombstone(rows, other, head).Some?
    ensures IsRecorded(RecordTombstone(rows, other, head).value, item, head)
  {
  }

  lemma EraseKeepsRows(v: Vault, item: Tombstone, t: Time)
    ensures Erase(v, item, t).tombstones == v.tombstones
  {
  }

  /** A replay that goes through has recorded every item. */
  lemma {:induction false} ReplayRecords(v: Vault, items: seq<Tombstone>, head: int, t: Time, item: Tombstone)
    requires ReplayAll(v, items, head, t).Some? && (item in items || IsRecorded(v.tombstones, item, head))
    ensures IsRecorded(ReplayAll(v, items, head, t).value.tombstones, item, head)
    decreases |items|
  {
    if items != [] {
      EraseKeepsRows(v, items[0], t);
      RecordExactly(v.tombstones, items[0], head);
      if item in items && item != items[0] { assert item in items[1..]; }
      if IsRecorded(v.tombstones, item, head) { StaysRecorded(v.tombstones, item, items[0], head); }
      ReplayRecords(ReplayItem(v, items[0], head, t).value, items[1..], head, t, item);
    }
  }

  /* ---- what a forced fence leaves --------------------------------------------------- */

  /** Every submission that has begun is unknown, whatever its deadline; what waits is cancelled. */
  predicate ForcedRow(before: OutboxRow, after: OutboxRow) {
    && after == before.(state := after.state, scope := after.scope, link := after.link)
    && after.state == match before.state
       case Pending => Cancelled
       case Leased => Cancelled
       case SubmissionStarted => OutcomeUnknown
       case other => other
  }

  predicate ForcedPermit(before: PermitRow, after: PermitRow) {
    && after == before.(state := after.state, scope := after.scope, link := after.link)
    && after.state == match before.state
       case Active => Expired
       case Started => Finished
       case other => other
  }

  /** Replaying an installation's tombstone: inactive at the higher generation, without token and links; the other installations, their tokens and links stay. */
  lemma ErasedInstallation(v: Vault, x: Id, generation: int, t: Time)
    requires x in v.db.installations
    ensures var before, after := v.db, EraseInstallation(v, x, generation, t).db;
      && after.installations.Keys == before.installations.Keys
      && after.installations[x].state == Inactive
      && after.installations[x].generation >= generation && after.installations[x].generation >= before.installations[x].generation
      && after.installations[x].generation in {generation, before.installations[x].generation}
      && (forall y :: y in before.installations && y != x ==> after.installations[y] == before.installations[y])
      && after.tokens == (map y | y in before.tokens && y != x :: before.tokens[y])
      && after.links == (map l | l in before.links && before.links[l].installation != x :: before.links[l])
      && after.operations == before.operations && after.gates == before.gates
  {
  }

  /** And nothing of it waits or is in flight. */
  lemma ErasedInstallationRows(v: Vault, x: Id, generation: int, t: Time)
    requires x in v.db.installations
    ensures var before, after := v.db, EraseInstallation(v, x, generation, t).db;
      && after.outbox.Keys == before.outbox.Keys && after.permits.Keys == before.permits.Keys
      && (forall o :: o in before.outbox && before.outbox[o].installation == x ==> ForcedRow(before.outbox[o], after.outbox[o]))
      && (forall p :: p in before.permits && before.permits[p].installation == x ==> ForcedPermit(before.permits[p], after.permits[p]))
  {
  }

  /** Replaying a link's tombstone removes the link and settles what is in its scope; installations and tokens stay. */
  lemma ErasedLink(v: Vault, l: Id, t: Time)
    ensures var before, after := v.db, EraseLink(v, l, t).db;
      && after.links == (map k | k in before.links && k != l :: before.links[k])
      && after.installations == before.installations && after.tokens == before.tokens
      && after.operations == before.operations && after.gates == before.gates
      && after.outbox.Keys == before.outbox.Keys && after.permits.Keys == before.permits.Keys
    ensures var before, after := v.db, EraseLink(v, l, t).db;
      && (forall o :: o in before.outbox ==>
            if before.outbox[o].link == Some(l) || before.outbox[o].scope == Some(l) then ForcedRow(before.outbox[o], after.outbox[o])
            else after.outbox[o] == before.outbox[o])
      && (forall p :: p in before.permits ==>
            if before.permits[p].link == Some(l) || before.permits[p].scope == Some(l) then ForcedPermit(before.permits[p], after.permits[p])
            else after.permits[p] == before.permits[p])
  {
  }

  /** Which rows an item replays on: those its scope MAC is stored with, and none for a scope of another kind. */
  lemma ErasesExactly(v: Vault, item: Tombstone, t: Time)
    ensures item.scopeKind == "installation" && item.scopeMac in v.installationOf && v.installationOf[item.scopeMac] in v.db.installations ==>
      Erase(v, item, t) == EraseInstallation(v, v.installationOf[item.scopeMac], item.deletionGeneration, t)
    ensures item.scopeKind == "account_link" && item.scopeMac in v.linkOf ==> Erase(v, item, t) == EraseLink(v, v.linkOf[item.scopeMac], t)
    ensures (item.scopeKind == "installation" ==> item.scopeMac !in v.installationOf || v.installationOf[item.scopeMac] !in v.db.installations)
         && (item.scopeKind == "account_link" ==> item.scopeMac !in v.linkOf)
      ==> Erase(v, item, t) == v
  {
    assert |"installation"| == 12 && |"account_link"| == 12 && "installation"[0] == 'i' && "account_link"[0] == 'a';
  }

  /* ---- appends ------------------------------------------------------------------------------ */

  /** A commit that asks for a known deletion id goes on with the item of that id; a new id with valid fields and a held key gets the next item, under the MACs of its scope and of itself; any other ask throws. */
  lemma AppendsExactly(env: Env, w: World, a: Asked, deletedAt: int)
    requires a in w.asked
    ensures var after := Restore.Next(env, w, DoAppend(a, deletedAt));
      if a.deletionId in w.byId
      then after == w.(commits := w.commits + {InCommit(a.operation, a.target, w.byId[a.deletionId], |w.items|)})
      else if FieldsValid(a.deletionId, KindText(a.target), a.generation, deletedAt, a.keyVersion) && a.keyVersion in env.keys.versions
      then
        && |after.items| == |w.items| + 1
        && var item := after.items[|w.items|];
        && item == Tombstone(|w.items| + 1, a.deletionId, KindText(a.target),
             env.keys.mac(a.keyVersion, ScopeInput(KindText(a.target), NameText(env, a.target))),
             a.generation, deletedAt, a.keyVersion, env.keys.mac(a.keyVersion, TombstoneInput(item.(mac := ""))))
        && after == w.(items := w.items + [item], byId := w.byId[a.deletionId := item],
             commits := w.commits + {InCommit(a.operation, a.target, item, |w.items| + 1)})
      else after == w
  {
    var unsigned := Tombstone(|w.items| + 1, a.deletionId, KindText(a.target), ScopeMac(env, a.keyVersion, a.target),
      a.generation, deletedAt, a.keyVersion, "");
    forall mac: string
      ensures unsigned.(mac := mac).(mac := "") == unsigned
    {
    }
  }

  /** Key rotation, backups and other work do what they say, so that histories hold them. */
  lemma SurroundingsMove(env: Env, w: World, keyVersion: string, db: Db)
    ensures Restore.Next(env, w, DoRotate(keyVersion)) == w.(keyVersion := keyVersion)
    ensures Restore.Next(env, w, DoBackup) == w.(backups := w.backups + {w.vault})
    ensures SameScopes(w.vault.db, db) ==> Restore.Next(env, w, DoWork(db)) == w.(vault := w.vault.(db := db))
  {
  }

  /* ---- commits --------------------------------------------------------------------------- */

  /** A commit's transaction goes through exactly when its rows allow it and its tombstone does not conflict; a first commit then has its tombstone row, and no column of a link that went stays. */
  lemma CommitsExactly(v: Vault, p: InCommit, t1: Time, t2: Time, t3: Time)
    ensures var again := p.operation in v.db.operations && v.db.operations[p.operation].committed;
      CommitVault(v, p, t1, t2, t3).Some? <==>
        CommitRows(v.db, p, t1, t2, t3).Some? && (again || RecordTombstone(v.tombstones, p.item, p.head).Some?)
    ensures CommitVault(v, p, t1, t2, t3).Some? ==>
      var again, after := p.operation in v.db.operations && v.db.operations[p.operation].committed, CommitVault(v, p, t1, t2, t3).value;
      && after.db == CommitRows(v.db, p, t1, t2, t3).value
      && after.installationOf == v.installationOf && after.deletions == v.deletions && after.watermark == v.watermark
      && if again then after == v.(db := after.db)
         else
           && IsRecorded(after.tombstones, p.item, p.head)
           && (forall id :: id in v.tombstones && id != p.item.deletionId ==> id in after.tombstones && after.tombstones[id] == v.tombstones[id])
           && (forall m :: m in after.linkOf <==> m in v.linkOf && v.linkOf[m] in after.db.links)
           && (forall m :: m in after.linkOf ==> after.linkOf[m] == v.linkOf[m])
           && (forall s :: s in after.keyVersions <==> s in v.keyVersions && (s.OfLink? ==> s.link in after.db.links))
           && (forall s :: s in after.keyVersions ==> after.keyVersions[s] == v.keyVersions[s])
  {
    if RecordTombstone(v.tombstones, p.item, p.head).Some? { RecordExactly(v.tombstones, p.item, p.head); }
  }

  /** The rows of a commit: as if the operation that was read were there, and without it when it is not. */
  lemma CommitRowsExactly(db: Db, p: InCommit, t1: Time, t2: Time, t3: Time)
    requires p.operation in db.operations
    ensures CommitRows(db, p, t1, t2, t3) ==
      if db.operations[p.operation].target != p.target then None
      else if p.target.OfInstallation? then CommitInstallation(db, p.operation, t1, t2, t3)
      else CommitLink(db, p.operation, t1, t2, t3)
  {
  }

  /* ---- the gates ------------------------------------------------------------------------- */

  /** Preparing a restore sets the database back to the backup with every gate closed. */
  lemma RestoreCloses(env: Env, w: World, backup: Vault, watermark: nat)
    requires backup in w.backups
    ensures var after := Restore.Next(env, w, DoRestore(backup, watermark));
      && after.vault.db == backup.db.(gates := after.vault.db.gates)
      && !after.vault.db.gates.ready && !after.vault.db.gates.mutations && !after.vault.db.gates.monitors && !after.vault.db.gates.delivery
      && after.vault.watermark == watermark && after.vault.tombstones == backup.tombstones
      && after.items == w.items && after.byId == w.byId && after.epoch == w.epoch + 1 && after.confirmed == {}
  {
  }

  /** A replay that commits opens mutations, and neither monitors nor delivery, at the head it read. */
  lemma ReplayOpens(env: Env, w: World, r: Replay, t: Time)
    ensures var after := Restore.Next(env, w, DoReplayCommit(r, t));
      if r in w.confirmed && !w.vault.db.gates.ready && w.vault.watermark == r.watermark && ReplayAll(w.vault, r.items, r.head, t).Some?
      then
        && after.vault.db.gates == Gates(true, true, false, false) && after.vault.watermark == r.head
        && after == w.(vault := after.vault)
        && forall item :: item in r.items ==> IsRecorded(after.vault.tombstones, item, r.head)
      else after == w
  {
    if ReplayAll(w.vault, r.items, r.head, t).Some? {
      forall item | item in r.items
        ensures IsRecorded(ReplayAll(w.vault, r.items, r.head, t).value.tombstones, item, r.head)
      {
        ReplayRecords(w.vault, r.items, r.head, t, item);
      }
    }
  }

  /** A replay is confirmed exactly when the service still waits for it and the ledger ends where it read. */
  lemma ConfirmsExactly(env: Env, w: World, r: Replay)
    requires r !in w.confirmed
    ensures var after := Restore.Next(env, w, DoReplayConfirm(r));
      r in after.confirmed <==> r in w.replays && !w.vault.db.gates.ready && w.vault.watermark == r.watermark && |w.items| == r.head
  {
  }
}
