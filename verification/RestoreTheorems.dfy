/** Deleted scopes stay deleted across backups and restores. */
module RestoreTheorems {
  import opened Base
  import opened Dispatch
  import opened Ledger
  import opened Restore
  import opened RestoreInvariant

  /* ---- new scopes and drains ----------------------------------------------- */

  lemma VersionsGrow(env: Env, w: World, s: Scope, k: string)
    requires Named(env) && WorldInv(env, w) && s !in w.versions
    ensures LedgerFits(env, w.items, w.byId, w.versions[s := k])
    ensures BackupsFit(env, w.backups, w.versions[s := k], w.byId)
    ensures RowsKnown(env, w.vault, w.versions[s := k]) && OperationsFit(env, w.vault, w.versions[s := k])
  {
    ItemsFitGrow(env, w.items, w.versions, s, k);
    KnownGrow(env, w.vault, w.versions, s, k);
    forall b | b in w.backups
      ensures VaultInv(env, b, w.versions[s := k], w.byId)
    {
      KnownGrow(env, b, w.versions, s, k);
    }
  }

  /** What is gone stays gone beside a new scope. */
  lemma ReflectsBeside(env: Env, a: Db, b: Db, items: seq<Tombstone>, n: nat, versions: map<Scope, string>, s: Scope, k: string)
    requires Named(env) && s !in versions && Reflects(env, a, items, n, versions)
    requires forall i :: 0 <= i < |items| ==> ItemFits(env, items[i], versions)
    requires forall r :: r != s && Gone(a, r) ==> Gone(b, r)
    ensures Reflects(env, b, items, n, versions[s := k])
  {
    forall i, r | 0 <= i < n && i < |items| && Deletes(env, items[i], r, versions[s := k])
      ensures Gone(b, r)
    {
      DeletesFrame(env, items[i], versions, s, k, r);
      assert Gone(a, r);
    }
  }

  /** Commits under way are about other scopes. */
  lemma AskedBeside(env: Env, a: Db, b: Db, versions: map<Scope, string>, epoch: nat, asked: set<Asked>, s: Scope, k: string)
    requires s !in versions && AllAskedFit(env, a, versions, epoch, asked)
    requires forall r :: r != s && NotLive(a, r) ==> NotLive(b, r)
    ensures AllAskedFit(env, b, versions[s := k], epoch, asked)
  {
    forall q | q in asked
      ensures AskedFits(env, b, versions[s := k], epoch, q)
    {
      assert AskedFits(env, a, versions, epoch, q);
    }
  }

  lemma RegisterSpares(db: Db, x: Id)
    requires Register(db, x).Some?
    ensures forall r :: r != OfInstallation(x) && Gone(db, r) ==> Gone(Register(db, x).value, r)
    ensures forall r :: r != OfInstallation(x) && NotLive(db, r) ==> NotLive(Register(db, x).value, r)
  {
  }

  lemma LinkSpares(db: Db, l: Id, x: Id)
    requires LinkAccount(db, l, x).Some?
    ensures forall r :: r != OfLink(l) && Gone(db, r) ==> Gone(LinkAccount(db, l, x).value, r)
    ensures forall r :: r != OfLink(l) && NotLive(db, r) ==> NotLive(LinkAccount(db, l, x).value, r)
  {
  }

  /** A new scope leaves the ledger, the commits under way and the gates' promise about the others alone. */
  lemma OthersKept(env: Env, w: World, db: Db, s: Scope, k: string)
    requires Named(env) && WorldInv(env, w) && s !in w.versions
    requires forall r :: r != s && Gone(w.vault.db, r) ==> Gone(db, r)
    requires forall r :: r != s && NotLive(w.vault.db, r) ==> NotLive(db, r)
    ensures Reflects(env, db, w.items, w.vault.watermark, w.versions[s := k])
    ensures AllAskedFit(env, db, w.versions[s := k], w.epoch, w.asked)
  {
    ReflectsBeside(env, w.vault.db, db, w.items, w.vault.watermark, w.versions, s, k);
    AskedBeside(env, w.vault.db, db, w.versions, w.epoch, w.asked, s, k);
  }

  lemma RegisteredRows(env: Env, v: Vault, u: Vault, versions: map<Scope, string>, x: Id, k: string)
    requires RowsKnown(env, v, versions) && Register(v.db, x).Some? && OfInstallation(x) in versions && versions[OfInstallation(x)] == k
    requires ScopeMac(env, k, OfInstallation(x)) !in v.installationOf
    requires u == v.(db := Register(v.db, x).value,
                     installationOf := v.installationOf[ScopeMac(env, k, OfInstallation(x)) := x],
                     keyVersions := v.keyVersions[OfInstallation(x) := k])
    ensures RowsKnown(env, u, versions)
  {
    forall y | y in u.db.installations
      ensures InstallationKnown(env, u, versions, y)
    {
      if y != x { assert InstallationKnown(env, v, versions, y); }
    }
    forall l | l in u.db.links
      ensures LinkKnown(env, u, versions, l)
    {
      assert LinkKnown(env, v, versions, l);
    }
  }

  lemma LinkedRows(env: Env, v: Vault, u: Vault, versions: map<Scope, string>, l: Id, x: Id, k: string)
    requires RowsKnown(env, v, versions) && LinkAccount(v.db, l, x).Some? && OfLink(l) in versions && versions[OfLink(l)] == k
    requires ScopeMac(env, k, OfLink(l)) !in v.linkOf
    requires u == v.(db := LinkAccount(v.db, l, x).value,
                     linkOf := v.linkOf[ScopeMac(env, k, OfLink(l)) := l],
                     keyVersions := v.keyVersions[OfLink(l) := k])
    ensures RowsKnown(env, u, versions)
  {
    forall y | y in u.db.installations
      ensures InstallationKnown(env, u, versions, y)
    {
      assert InstallationKnown(env, v, versions, y);
    }
    forall m | m in u.db.links
      ensures LinkKnown(env, u, versions, m)
    {
      if m != l { assert LinkKnown(env, v, versions, m); }
    }
  }

  /** A scope that was never used is no operation's target. */
  lemma OperationsSpared(env: Env, v: Vault, u: Vault, versions: map<Scope, string>, s: Scope, k: string)
    requires OperationsFit(env, v, versions) && s !in versions
    requires u.deletions == v.deletions && u.db.operations == v.db.operations
    requires forall r :: r != s && NotLive(v.db, r) ==> NotLive(u.db, r)
    ensures OperationsFit(env, u, versions[s := k])
  {
    forall o | o in u.db.operations
      ensures OperationFits(env, u, versions[s := k], o)
    {
      assert OperationFits(env, v, versions, o);
    }
  }

  lemma RegisterKeeps(env: Env, w: World, x: Id)
    requires Named(env) && WorldInv(env, w)
    ensures WorldInv(env, RegisterIn(env, w, x))
  {
    var s, after := OfInstallation(x), RegisterIn(env, w, x);
    if after != w {
      VersionsGrow(env, w, s, w.keyVersion);
      RegisterSpares(w.vault.db, x);
      RegisteredRows(env, w.vault, after.vault, after.versions, x, w.keyVersion);
      OperationsSpared(env, w.vault, after.vault, w.versions, s, w.keyVersion);
      OthersKept(env, w, after.vault.db, s, w.keyVersion);
    }
  }

  lemma LinkKeeps(env: Env, w: World, l: Id, x: Id)
    requires Named(env) && WorldInv(env, w)
    ensures WorldInv(env, LinkIn(env, w, l, x))
  {
    var s, after := OfLink(l), LinkIn(env, w, l, x);
    if after != w {
      VersionsGrow(env, w, s, w.keyVersion);
      LinkSpares(w.vault.db, l, x);
      LinkedRows(env, w.vault, after.vault, after.versions, l, x, w.keyVersion);
      OperationsSpared(env, w.vault, after.vault, w.versions, s, w.keyVersion);
      OthersKept(env, w, after.vault.db, s, w.keyVersion);
    }
  }

  /** What both drains do to scopes and operations. */
  ghost predicate Drains(db: Db, after: Db, operation: Id, s: Scope) {
    && Shrinks(db, after) && after.gates == db.gates
    && operation !in db.operations
    && after.operations == db.operations[operation := Operation(s, false)]
    && NotLive(after, s)
    && match s case OfInstallation(x) => x in db.installations case OfLink(l) => l in db.links
  }

  lemma DrainInKeeps(env: Env, w: World, after: Option<Db>, operation: Id, s: Scope)
    requires WorldInv(env, w)
    requires after.Some? ==> Drains(w.vault.db, after.value, operation, s)
    ensures WorldInv(env, DrainIn(env, w, after, operation, s))
  {
    var u := DrainIn(env, w, after, operation, s).vault;
    if after.Some? && Generation(w.vault.db, s).Some? {
      RowsKnownShrinks(env, w.vault, u, w.versions);
      GateShrinks(env, w.vault, u, w.items, w.versions);
      AskedShrinks(env, w.vault.db, u.db, w.versions, w.epoch, w.asked);
      forall o | o in u.db.operations
        ensures OperationFits(env, u, w.versions, o)
      {
        if o == operation {
          assert match s case OfInstallation(x) => InstallationKnown(env, w.vault, w.versions, x)
                         case OfLink(l) => LinkKnown(env, w.vault, w.versions, l);
          assert u.deletions[o] == DeletionText(env, s, Generation(w.vault.db, s).value + 1);
        } else {
          assert OperationFits(env, w.vault, w.versions, o);
          ShrinksNotLive(w.vault.db, u.db, w.vault.db.operations[o].target);
        }
      }
    }
  }

  lemma DrainInstallationDrains(db: Db, x: Id, also: set<Id>, operation: Id, t1: Time, t2: Time)
    requires DrainInstallation(db, x, also, operation, t1, t2).Some?
    ensures Drains(db, DrainInstallation(db, x, also, operation, t1, t2).value, operation, OfInstallation(x))
  {
    assert DrainInstallation(db, x, also, operation, t1, t2).value.installations.Keys == db.installations.Keys;
  }

  lemma DrainLinkDrains(db: Db, x: Id, l: Id, operation: Id, t1: Time, t2: Time)
    requires DrainLink(db, x, l, operation, t1, t2).Some?
    ensures Drains(db, DrainLink(db, x, l, operation, t1, t2).value, operation, OfLink(l))
  {
  }

  /* ---- commits ---------------------------------------------------------------- */

  /** A commit reads an operation whose scope is not live. */
  lemma ReadKeeps(env: Env, w: World, operation: Id)
    requires WorldInv(env, w)
    ensures WorldInv(env, ReadIn(w, operation))
  {
    var after := ReadIn(w, operation);
    if after.asked != w.asked {
      assert OperationFits(env, w.vault, w.versions, operation);
      var s := w.vault.db.operations[operation].target;
      assert match s case OfInstallation(x) => InstallationKnown(env, w.vault, w.versions, x)
                     case OfLink(l) => LinkKnown(env, w.vault, w.versions, l);
      var q := Asked(operation, s, w.vault.deletions[operation], Generation(w.vault.db, s).value + 1, w.vault.keyVersions[s], w.epoch);
      assert AskedFits(env, w.vault.db, w.versions, w.epoch, q);
    }
  }

  /**
   The item a commit seals deletes the scope it read, under the key version the scope was
   inserted with; the scope is not live, unless a restore came after the read. */
  lemma AppendedItem(env: Env, w: World, a: Asked, deletedAt: int)
    requires AllAskedFit(env, w.vault.db, w.versions, w.epoch, w.asked)
    requires NewItem(env, w, a, deletedAt).Some?
    ensures var item := NewItem(env, w, a, deletedAt).value;
      && item.sequence == |w.items| + 1 && item.deletionId == a.deletionId && item.deletionId !in w.byId
      && Deletes(env, item, a.target, w.versions)
      && (a.epoch == w.epoch ==> NotLive(w.vault.db, a.target))
  {
    assert AskedFits(env, w.vault.db, w.versions, w.epoch, a);
  }

  lemma AppendKeeps(env: Env, w: World, a: Asked, deletedAt: int)
    requires Named(env) && WorldInv(env, w)
    ensures WorldInv(env, AppendIn(env, w, a, deletedAt))
  {
    var item := NewItem(env, w, a, deletedAt);
    if item.Some? {
      AppendedItem(env, w, a, deletedAt);
      LedgerGrows(env, w, item.value, a.target);
      CommitAdded(w.commits, w.byId, item.value, InCommit(a.operation, a.target, item.value, |w.items| + 1));
    }
  }

  lemma CommitAdded(commits: set<InCommit>, byId: map<string, Tombstone>, item: Tombstone, p: InCommit)
    requires CommitsFit(commits, byId) && item.deletionId !in byId && p.item == item
    ensures CommitsFit(commits + {p}, byId[item.deletionId := item])
  {
  }

  /** One more ledger item. */
  lemma LedgerGrows(env: Env, w: World, item: Tombstone, s: Scope)
    requires WorldInv(env, w)
    requires item.sequence == |w.items| + 1 && item.deletionId !in w.byId
    requires Deletes(env, item, s, w.versions)
    ensures LedgerFits(env, w.items + [item], w.byId[item.deletionId := item], w.versions)
    ensures VaultInv(env, w.vault, w.versions, w.byId[item.deletionId := item])
    ensures BackupsFit(env, w.backups, w.versions, w.byId[item.deletionId := item])
    ensures ReplaysFit(w.replays, w.items + [item])
    ensures GateFits(env, w.vault, w.items + [item], w.versions)
  {
    AppendCanonical(w.items, w.byId, item);
    TombstonesGrow(w.vault.tombstones, w.byId, item.deletionId, item);
    forall b | b in w.backups
      ensures VaultInv(env, b, w.versions, w.byId[item.deletionId := item])
    {
      TombstonesGrow(b.tombstones, w.byId, item.deletionId, item);
    }
  }

  /** What both commits do to scopes, operations and gates. */
  ghost predicate Commits(db: Db, after: Db) {
    && Shrinks(db, after) && after.gates == db.gates
    && after.operations.Keys == db.operations.Keys
    && forall o :: o in db.operations ==> after.operations[o].target == db.operations[o].target
  }

  lemma CommitInstallationShrinks(db: Db, operation: Id, t1: Time, t2: Time, t3: Time)
    requires CommitInstallation(db, operation, t1, t2, t3).Some?
    ensures Commits(db, CommitInstallation(db, operation, t1, t2, t3).value)
  {
    var after := CommitInstallation(db, operation, t1, t2, t3).value;
    assert after.installations.Keys == db.installations.Keys;
    assert after.operations.Keys == db.operations.Keys;
  }

  lemma CommitLinkShrinks(db: Db, operation: Id, t1: Time, t2: Time, t3: Time)
    requires CommitLink(db, operation, t1, t2, t3).Some?
    ensures Commits(db, CommitLink(db, operation, t1, t2, t3).value)
  {
    var after := CommitLink(db, operation, t1, t2, t3).value;
    assert after.operations.Keys == db.operations.Keys;
  }

  lemma CommitRowsShrinks(db: Db, p: InCommit, t1: Time, t2: Time, t3: Time)
    requires CommitRows(db, p, t1, t2, t3).Some?
    ensures Commits(db, CommitRows(db, p, t1, t2, t3).value)
  {
    var db1 := if p.operation in db.operations then db else db.(operations := db.operations[p.operation := Operation(p.target, false)]);
    if p.target.OfInstallation? {
      CommitInstallationShrinks(db1, p.operation, t1, t2, t3);
    } else {
      CommitLinkShrinks(db1, p.operation, t1, t2, t3);
    }
  }

  /** The tombstone of a commit never conflicts. */
  lemma CommitRecords(v: Vault, p: InCommit, after: Db, byId: map<string, Tombstone>)
    requires TombstonesAgree(v.tombstones, byId) && p.item.deletionId in byId && byId[p.item.deletionId] == p.item
    ensures CommitWith(v, p, after).Some?
    ensures TombstonesAgree(CommitWith(v, p, after).value.tombstones, byId)
  {
    RecordNeverConflicts(v.tombstones, byId, p.item, p.head);
  }

  /** The columns a commit keeps. */
  lemma CommitColumns(v: Vault, p: InCommit, after: Db)
    requires CommitWith(v, p, after).Some?
    ensures var u := CommitWith(v, p, after).value;
      && u.db == after && u.deletions == v.deletions && u.watermark == v.watermark
      && KeepsColumns(v, u)
  {
    var u := CommitWith(v, p, after).value;
    assert u.installationOf == v.installationOf;
    forall m | m in v.linkOf && v.linkOf[m] in after.links
      ensures m in u.linkOf && u.linkOf[m] == v.linkOf[m]
    {
    }
    forall s | s in v.keyVersions && (s.OfLink? ==> s.link in after.links)
      ensures s in u.keyVersions && u.keyVersions[s] == v.keyVersions[s]
    {
    }
  }

  lemma CommitKeeps(env: Env, w: World, p: InCommit, t1: Time, t2: Time, t3: Time)
    requires WorldInv(env, w)
    ensures WorldInv(env, CommitIn(w, p, t1, t2, t3))
  {
    var after := CommitRows(w.vault.db, p, t1, t2, t3);
    if p in w.commits && after.Some? {
      CommitRecords(w.vault, p, after.value, w.byId);
      CommitColumns(w.vault, p, after.value);
      CommitRowsShrinks(w.vault.db, p, t1, t2, t3);
      VaultShrinks(env, w, CommitWith(w.vault, p, after.value).value);
    }
  }

  /** A transaction that takes scopes away keeps the invariant. */
  lemma VaultShrinks(env: Env, w: World, u: Vault)
    requires WorldInv(env, w) && Commits(w.vault.db, u.db) && KeepsColumns(w.vault, u)
    requires u.deletions == w.vault.deletions && u.watermark == w.vault.watermark && TombstonesAgree(u.tombstones, w.byId)
    ensures WorldInv(env, w.(vault := u))
  {
    RowsKnownShrinks(env, w.vault, u, w.versions);
    OperationsFitShrinks(env, w.vault, u, w.versions);
    GateShrinks(env, w.vault, u, w.items, w.versions);
    AskedShrinks(env, w.vault.db, u.db, w.versions, w.epoch, w.asked);
  }

  /* ---- restore and replay --------------------------------------------------------- */

  lemma RestoreKeeps(env: Env, w: World, backup: Vault, watermark: nat)
    requires WorldInv(env, w) && backup in w.backups && GoodStep(env, w, DoRestore(backup, watermark))
    ensures WorldInv(env, RestoreIn(w, backup, watermark))
  {
    var u := RestoreIn(w, backup, watermark).vault;
    RowsKnownShrinks(env, backup, u, w.versions);
    OperationsFitShrinks(env, backup, u, w.versions);
    ReflectsShrinks(env, backup.db, u.db, w.items, watermark, w.versions);
    forall a | a in w.asked
      ensures AskedFits(env, u.db, w.versions, w.epoch + 1, a)
    {
      assert AskedFits(env, w.vault.db, w.versions, w.epoch, a);
    }
  }

  ghost predicate FromLedger(env: Env, items: seq<Tombstone>, byId: map<string, Tombstone>, versions: map<Scope, string>) {
    forall i :: 0 <= i < |items| ==>
      items[i].deletionId in byId && byId[items[i].deletionId] == items[i] && ItemFits(env, items[i], versions)
  }

  /** What the whole loop leaves: never a conflict, and every replayed scope gone. */
  lemma {:induction false} ReplayAllDeletes(env: Env, v: Vault, items: seq<Tombstone>, head: int, t: Time,
                                            versions: map<Scope, string>, byId: map<string, Tombstone>)
    requires VaultInv(env, v, versions, byId) && FromLedger(env, items, byId, versions)
    ensures ReplayAll(v, items, head, t).Some?
    ensures var u := ReplayAll(v, items, head, t).value;
      && VaultInv(env, u, versions, byId)
      && Shrinks(v.db, u.db)
      && Reflects(env, u.db, items, |items|, versions)
    decreases |items|
  {
    if items != [] {
      ReplayItemDeletes(env, v, items[0], head, t, versions, byId);
      var v1 := ReplayItem(v, items[0], head, t).value;
      ReplayAllDeletes(env, v1, items[1..], head, t, versions, byId);
      var u := ReplayAll(v1, items[1..], head, t).value;
      ShrinksTransitive(v.db, v1.db, u.db);
      forall i, s | 0 <= i < |items| && Deletes(env, items[i], s, versions)
        ensures Gone(u.db, s)
      {
        if i == 0 { ShrinksGone(v1.db, u.db, s); }
        else { assert Deletes(env, items[1..][i - 1], s, versions); }
      }
    }
  }

  lemma ReplayItemDeletes(env: Env, v: Vault, item: Tombstone, head: int, t: Time,
                          versions: map<Scope, string>, byId: map<string, Tombstone>)
    requires VaultInv(env, v, versions, byId) && item.deletionId in byId && byId[item.deletionId] == item
    ensures ReplayItem(v, item, head, t).Some?
    ensures var u := ReplayItem(v, item, head, t).value;
      && VaultInv(env, u, versions, byId)
      && Shrinks(v.db, u.db)
      && forall s :: Deletes(env, item, s, versions) ==> Gone(u.db, s)
  {
    RecordNeverConflicts(v.tombstones, byId, item, head);
    EraseShrinks(v, item, t);
    var u := ReplayItem(v, item, head, t).value;
    RowsKnownShrinks(env, v, u, versions);
    OperationsFitShrinks(env, v, u, versions);
    forall s | Deletes(env, item, s, versions)
      ensures Gone(u.db, s)
    {
      EraseDeletes(env, v, item, t, s, versions);
    }
  }

  lemma SliceFromLedger(env: Env, w: World, lo: nat, hi: nat)
    requires LedgerFits(env, w.items, w.byId, w.versions) && lo <= hi <= |w.items|
    ensures FromLedger(env, w.items[lo..hi], w.byId, w.versions)
  {
  }

  /** Items up to the watermark, and the slice from there to the head, are the items up to the head. */
  lemma ReflectsJoins(env: Env, db: Db, items: seq<Tombstone>, lo: nat, hi: nat, versions: map<Scope, string>)
    requires lo <= hi <= |items| && Reflects(env, db, items, lo, versions)
    requires Reflects(env, db, items[lo..hi], hi - lo, versions)
    ensures Reflects(env, db, items, hi, versions)
  {
    forall i, s | 0 <= i < hi && i < |items| && Deletes(env, items[i], s, versions)
      ensures Gone(db, s)
    {
      if i >= lo { assert items[lo..hi][i - lo] == items[i]; }
    }
  }

  /** After the replay transaction every scope with a tombstone up to the confirmed head is gone. */
  lemma ReplayCommitDeletes(env: Env, w: World, r: Replay, t: Time)
    requires WorldInv(env, w) && MayOpen(w, r)
    ensures ReplayAll(w.vault, r.items, r.head, t).Some?
    ensures var u := ReplayAll(w.vault, r.items, r.head, t).value;
      && VaultInv(env, u, w.versions, w.byId) && Shrinks(w.vault.db, u.db)
      && Reflects(env, u.db, w.items, r.head, w.versions)
  {
    SliceFromLedger(env, w, r.watermark, r.head);
    ReplayAllDeletes(env, w.vault, r.items, r.head, t, w.versions, w.byId);
    var u := ReplayAll(w.vault, r.items, r.head, t).value;
    ReflectsShrinks(env, w.vault.db, u.db, w.items, r.watermark, w.versions);
    ReflectsJoins(env, u.db, w.items, r.watermark, r.head, w.versions);
  }

  lemma ReplayCommitKeeps(env: Env, w: World, r: Replay, t: Time)
    requires WorldInv(env, w)
    ensures WorldInv(env, ReplayCommitIn(w, r, t))
  {
    if MayOpen(w, r) {
      ReplayCommitDeletes(env, w, r, t);
      var u0, u := ReplayAll(w.vault, r.items, r.head, t).value, ReplayCommitIn(w, r, t).vault;
      RowsKnownShrinks(env, u0, u, w.versions);
      OperationsFitShrinks(env, u0, u, w.versions);
      ReflectsShrinks(env, u0.db, u.db, w.items, r.head, w.versions);
      ShrinksTransitive(w.vault.db, u0.db, u.db);
      AskedShrinks(env, w.vault.db, u.db, w.versions, w.epoch, w.asked);
    }
  }

  lemma WorkKeeps(env: Env, w: World, db: Db)
    requires WorldInv(env, w) && SameScopes(w.vault.db, db)
    ensures WorldInv(env, w.(vault := w.vault.(db := db)))
  {
    var u := w.vault.(db := db);
    RowsKnownShrinks(env, w.vault, u, w.versions);
    OperationsFitShrinks(env, w.vault, u, w.versions);
    GateShrinks(env, w.vault, u, w.items, w.versions);
    AskedShrinks(env, w.vault.db, u.db, w.versions, w.epoch, w.asked);
  }

  lemma NextKeeps(env: Env, w: World, step: Restore.Step)
    requires Named(env) && WorldInv(env, w) && GoodStep(env, w, step)
    ensures WorldInv(env, Restore.Next(env, w, step))
  {
    match step
    case DoRegister(x) => RegisterKeeps(env, w, x);
    case DoLink(l, x) => LinkKeeps(env, w, l, x);
    case DoDrainInstallation(x, also, operation, t1, t2) =>
      var after := DrainInstallation(w.vault.db, x, also, operation, t1, t2);
      if after.Some? { DrainInstallationDrains(w.vault.db, x, also, operation, t1, t2); }
      DrainInKeeps(env, w, after, operation, OfInstallation(x));
    case DoDrainLink(x, l, operation, t1, t2) =>
      var after := DrainLink(w.vault.db, x, l, operation, t1, t2);
      if after.Some? { DrainLinkDrains(w.vault.db, x, l, operation, t1, t2); }
      DrainInKeeps(env, w, after, operation, OfLink(l));
    case DoWork(db) => if SameScopes(w.vault.db, db) { WorkKeeps(env, w, db); }
    case DoRead(operation) => ReadKeeps(env, w, operation);
    case DoAppend(a, deletedAt) => AppendKeeps(env, w, a, deletedAt);
    case DoCommit(p, t1, t2, t3) => CommitKeeps(env, w, p, t1, t2, t3);
    case DoRotate(_) =>
    case DoBackup =>
    case DoRestore(backup, watermark) => if backup in w.backups { RestoreKeeps(env, w, backup, watermark); }
    case DoReplayRead(_) =>
    case DoReplayConfirm(_) =>
    case DoReplayCommit(r, t) => ReplayCommitKeeps(env, w, r, t);
  }

  /* ---- whole histories --------------------------------------------------------------- */

  function History(env: Env, w: World, steps: seq<Restore.Step>): World {
    if steps == [] then w else Restore.Next(env, History(env, w, steps[..|steps| - 1]), steps[|steps| - 1])
  }

  ghost predicate GoodHistory(env: Env, w: World, steps: seq<Restore.Step>) {
    forall i :: 0 <= i < |steps| ==> GoodStep(env, History(env, w, steps[..i]), steps[i])
  }

  /** An empty service. */
  predicate Fresh(w: World) {
    && w.items == [] && w.byId == map[] && w.backups == {} && w.versions == map[] && w.asked == {} && w.commits == {} && w.replays == {} && w.confirmed == {}
    && w.vault.db.installations == map[] && w.vault.db.links == map[] && w.vault.db.tokens == map[]
    && w.vault.db.operations == map[] && w.vault.tombstones == map[] && w.vault.db.gates.ready && w.vault.watermark == 0
  }

  lemma {:induction false} HistoryKeeps(env: Env, w: World, steps: seq<Restore.Step>)
    requires Named(env) && Fresh(w) && GoodHistory(env, w, steps)
    ensures WorldInv(env, History(env, w, steps))
  {
    if steps != [] {
      var init := steps[..|steps| - 1];
      forall i | 0 <= i < |init|
        ensures GoodStep(env, History(env, w, init[..i]), init[i])
      {
        assert init[..i] == steps[..i];
      }
      HistoryKeeps(env, w, init);
      assert steps[..|steps| - 1] == init;
      NextKeeps(env, History(env, w, init), steps[|steps| - 1]);
    }
  }

  /** While the service is open, every scope with a tombstone up to the watermark of the last replay stays gone. */
  lemma ReplayedStaysGone(env: Env, w: World, steps: seq<Restore.Step>, i: nat, s: Scope)
    requires Named(env) && Fresh(w) && GoodHistory(env, w, steps)
    requires var end := History(env, w, steps);
      i < end.vault.watermark && i < |end.items| && Deletes(env, end.items[i], s, end.versions)
    ensures Gone(History(env, w, steps).vault.db, s)
  {
    HistoryKeeps(env, w, steps);
  }

  /** A replay that confirmed its head never conflicts, opens the service, and leaves nothing of any scope with a tombstone up to that head. */
  lemma RestoreDeletesEverything(env: Env, w: World, steps: seq<Restore.Step>, r: Replay, t: Time)
    requires Named(env) && Fresh(w) && GoodHistory(env, w, steps) && MayOpen(History(env, w, steps), r)
    ensures var before := History(env, w, steps);
      var after := ReplayCommitIn(before, r, t);
      && after.vault.db.gates.ready && after.vault.watermark == r.head <= |before.items| && after.items == before.items
      && Reflects(env, after.vault.db, after.items, r.head, after.versions)
  {
    HistoryKeeps(env, w, steps);
    var before := History(env, w, steps);
    ReplayCommitDeletes(env, before, r, t);
    var u, after := ReplayAll(before.vault, r.items, r.head, t).value, ReplayCommitIn(before, r, t);
    ReflectsShrinks(env, u.db, after.vault.db, before.items, r.head, before.versions);
  }
}
