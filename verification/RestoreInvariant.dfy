/** What every step of a history with backups and restores keeps. */
module RestoreInvariant {
  import opened Base
  import opened Dispatch
  import opened Ledger
  import opened Restore

  /* ---- deletion ids name their scope --------------------------------------- */

  lemma {:induction false} DigitsNoColon(n: nat)
    ensures ':' !in Digits(n)
  {
    if n >= 10 { DigitsNoColon(n / 10); }
  }

  /** The last colon splits a deletion id. */
  lemma {:induction false} LastColonSplits(a: string, d: string, b: string, e: string)
    requires ':' !in d && ':' !in e && a + ":" + d == b + ":" + e
    ensures a == b
  {
    var whole := a + ":" + d;
    assert whole[|a|] == ':' && whole[|b|] == ':';
    assert |a| == |b|;
    assert whole[..|a|] == a && (b + ":" + e)[..|b|] == b;
  }

  /** A deletion id determines the scope it deletes. */
  lemma DeletionTextNames(env: Env, s: Scope, g: nat, r: Scope, h: nat)
    requires Named(env) && DeletionText(env, s, g) == DeletionText(env, r, h)
    ensures s == r
  {
    DigitsNoColon(g);
    DigitsNoColon(h);
    LastColonSplits(KindText(s) + ":" + NameText(env, s), Digits(g), KindText(r) + ":" + NameText(env, r), Digits(h));
    var a, b := KindText(s) + ":" + NameText(env, s), KindText(r) + ":" + NameText(env, r);
    assert a[0] == b[0];
    assert KindText(s) == KindText(r);
    assert a[|KindText(s)| + 1..] == NameText(env, s);
    assert b[|KindText(r)| + 1..] == NameText(env, r);
  }

  /* ---- the invariant -------------------------------------------------------- */

  /** A scope's row, if present, can be found by the MAC under the version it was inserted with. */
  ghost predicate InstallationKnown(env: Env, v: Vault, versions: map<Scope, string>, x: Id) {
    var s := OfInstallation(x);
    && s in v.keyVersions && s in versions && v.keyVersions[s] == versions[s]
    && ScopeMac(env, versions[s], s) in v.installationOf
    && v.installationOf[ScopeMac(env, versions[s], s)] == x
  }

  ghost predicate LinkKnown(env: Env, v: Vault, versions: map<Scope, string>, l: Id) {
    var s := OfLink(l);
    && s in v.keyVersions && s in versions && v.keyVersions[s] == versions[s]
    && ScopeMac(env, versions[s], s) in v.linkOf
    && v.linkOf[ScopeMac(env, versions[s], s)] == l
  }

  ghost predicate RowsKnown(env: Env, v: Vault, versions: map<Scope, string>) {
    && (forall x :: x in v.db.installations ==> InstallationKnown(env, v, versions, x))
    && (forall l :: l in v.db.links ==> LinkKnown(env, v, versions, l) && v.db.links[l].installation in v.db.installations)
    && (forall x :: x in v.db.tokens ==> x in v.db.installations)
  }

  ghost predicate NotLive(db: Db, s: Scope) {
    match s
    case OfInstallation(x) => x in db.installations ==> db.installations[x].state != Live
    case OfLink(l) => l in db.links ==> db.links[l].state != Live
  }

  /** A draining operation has a deletion id of its scope, and a scope that is no longer live. */
  ghost predicate OperationFits(env: Env, v: Vault, versions: map<Scope, string>, operation: Id)
    requires operation in v.db.operations
  {
    && operation in v.deletions && v.db.operations[operation].target in versions
    && (exists g :: v.deletions[operation] == DeletionText(env, v.db.operations[operation].target, g))
    && NotLive(v.db, v.db.operations[operation].target)
  }

  ghost predicate OperationsFit(env: Env, v: Vault, versions: map<Scope, string>) {
    forall operation :: operation in v.db.operations ==> OperationFits(env, v, versions, operation)
  }

  /** Local tombstones repeat the ledger. */
  ghost predicate TombstonesAgree(rows: map<string, TombstoneRow>, byId: map<string, Tombstone>) {
    forall id :: id in rows ==> id in byId && SameTombstone(rows[id], byId[id], byId[id].sequence)
  }

  ghost predicate VaultInv(env: Env, v: Vault, versions: map<Scope, string>, byId: map<string, Tombstone>) {
    RowsKnown(env, v, versions) && OperationsFit(env, v, versions) && TombstonesAgree(v.tombstones, byId)
  }

  /** The ledger item deletes the scope, under the version the scope was inserted with. */
  ghost predicate Deletes(env: Env, item: Tombstone, s: Scope, versions: map<Scope, string>) {
    && s in versions
    && (exists g :: item.deletionId == DeletionText(env, s, g))
    && item.scopeKind == KindText(s)
    && item.scopeMac == ScopeMac(env, versions[s], s)
  }

  ghost predicate ItemFits(env: Env, item: Tombstone, versions: map<Scope, string>) {
    exists s :: Deletes(env, item, s, versions)
  }

  /** Nothing of the scope is left but an inactive installation row. */
  ghost predicate Gone(db: Db, s: Scope) {
    match s
    case OfInstallation(x) =>
      && (x in db.installations ==> db.installations[x].state == Inactive)
      && x !in db.tokens
      && forall l :: l in db.links ==> db.links[l].installation != x
    case OfLink(l) => l !in db.links
  }

  /** The database holds the effects of the first `n` ledger items. */
  ghost predicate Reflects(env: Env, db: Db, items: seq<Tombstone>, n: nat, versions: map<Scope, string>) {
    forall i, s :: 0 <= i < n && i < |items| && Deletes(env, items[i], s, versions) ==> Gone(db, s)
  }

  ghost predicate NoneLive(env: Env, db: Db, items: seq<Tombstone>, versions: map<Scope, string>) {
    forall i, s :: 0 <= i < |items| && Deletes(env, items[i], s, versions) ==> NotLive(db, s)
  }

  ghost predicate LedgerFits(env: Env, items: seq<Tombstone>, byId: map<string, Tombstone>, versions: map<Scope, string>) {
    Canonical(items, byId) && forall i :: 0 <= i < |items| ==> ItemFits(env, items[i], versions)
  }

  ghost predicate BackupsFit(env: Env, backups: set<Vault>, versions: map<Scope, string>, byId: map<string, Tombstone>) {
    forall b :: b in backups ==> VaultInv(env, b, versions, byId)
  }

  /** A commit under way holds the ledger's item of its deletion id. */
  ghost predicate CommitsFit(commits: set<InCommit>, byId: map<string, Tombstone>) {
    forall p :: p in commits ==> p.item.deletionId in byId && byId[p.item.deletionId] == p.item
  }

  /**
   A commit that has read asks for a deletion of its scope under the version the scope was
   inserted with; unless a restore came after the read, the scope is still not live. */
  ghost predicate AskedFits(env: Env, db: Db, versions: map<Scope, string>, epoch: nat, a: Asked) {
    && a.target in versions && a.keyVersion == versions[a.target]
    && (exists g :: a.deletionId == DeletionText(env, a.target, g))
    && a.epoch <= epoch
    && (a.epoch == epoch ==> NotLive(db, a.target))
  }

  ghost predicate AllAskedFit(env: Env, db: Db, versions: map<Scope, string>, epoch: nat, asked: set<Asked>) {
    forall a :: a in asked ==> AskedFits(env, db, versions, epoch, a)
  }

  /** A replay under way holds the items between its watermark and its head. */
  ghost predicate ReplaysFit(replays: set<Replay>, items: seq<Tombstone>) {
    forall r :: r in replays ==> r.watermark <= r.head <= |items| && r.items == items[r.watermark..r.head]
  }

  ghost predicate WorldInv(env: Env, w: World) {
    && LedgerFits(env, w.items, w.byId, w.versions)
    && VaultInv(env, w.vault, w.versions, w.byId)
    && BackupsFit(env, w.backups, w.versions, w.byId)
    && AllAskedFit(env, w.vault.db, w.versions, w.epoch, w.asked)
    && CommitsFit(w.commits, w.byId)
    && ReplaysFit(w.replays, w.items) && w.confirmed <= w.replays
    && GateFits(env, w.vault, w.items, w.versions)
  }

  /** Restores use a backup that holds the effects of the items up to the watermark given to prepareRestore. */
  ghost predicate GoodStep(env: Env, w: World, step: Restore.Step) {
    step.DoRestore? && step.backup in w.backups ==>
      step.watermark <= |w.items| && Reflects(env, step.backup.db, w.items, step.watermark, w.versions)
  }


  /* ---- transactions that only take scopes away ------------------------------- */

  ghost predicate Shrinks(a: Db, b: Db) {
    && b.installations.Keys == a.installations.Keys
    && (forall x :: x in a.installations ==>
          && (a.installations[x].state != Live ==> b.installations[x].state != Live)
          && (a.installations[x].state == Inactive ==> b.installations[x].state == Inactive))
    && b.links.Keys <= a.links.Keys
    && (forall l :: l in b.links ==>
          && b.links[l].installation == a.links[l].installation
          && (a.links[l].state != Live ==> b.links[l].state != Live))
    && b.tokens.Keys <= a.tokens.Keys
  }

  lemma ShrinksNotLive(a: Db, b: Db, s: Scope)
    requires Shrinks(a, b) && NotLive(a, s)
    ensures NotLive(b, s)
  {
  }

  lemma ShrinksGone(a: Db, b: Db, s: Scope)
    requires Shrinks(a, b) && Gone(a, s)
    ensures Gone(b, s)
  {
  }

  lemma ShrinksTransitive(a: Db, b: Db, c: Db)
    requires Shrinks(a, b) && Shrinks(b, c)
    ensures Shrinks(a, c)
  {
  }

  lemma GoneNotLive(db: Db, s: Scope)
    requires Gone(db, s)
    ensures NotLive(db, s)
  {
  }

  /** Indexes and columns of the rows that are left. */
  ghost predicate KeepsColumns(v: Vault, u: Vault) {
    && u.installationOf == v.installationOf
    && (forall m :: m in v.linkOf && v.linkOf[m] in u.db.links ==> m in u.linkOf && u.linkOf[m] == v.linkOf[m])
    && (forall s :: s in v.keyVersions && (s.OfLink? ==> s.link in u.db.links) ==>
          s in u.keyVersions && u.keyVersions[s] == v.keyVersions[s])
  }

  lemma RowsKnownShrinks(env: Env, v: Vault, u: Vault, versions: map<Scope, string>)
    requires RowsKnown(env, v, versions) && Shrinks(v.db, u.db) && KeepsColumns(v, u)
    ensures RowsKnown(env, u, versions)
  {
    forall x | x in u.db.installations
      ensures InstallationKnown(env, u, versions, x)
    {
      assert InstallationKnown(env, v, versions, x);
    }
    forall l | l in u.db.links
      ensures LinkKnown(env, u, versions, l)
    {
      assert LinkKnown(env, v, versions, l);
    }
  }

  lemma OperationsFitShrinks(env: Env, v: Vault, u: Vault, versions: map<Scope, string>)
    requires OperationsFit(env, v, versions) && Shrinks(v.db, u.db) && u.deletions == v.deletions
    requires u.db.operations.Keys == v.db.operations.Keys
    requires forall o :: o in v.db.operations ==> u.db.operations[o].target == v.db.operations[o].target
    ensures OperationsFit(env, u, versions)
  {
    forall o | o in u.db.operations
      ensures OperationFits(env, u, versions, o)
    {
      assert OperationFits(env, v, versions, o);
      ShrinksNotLive(v.db, u.db, v.db.operations[o].target);
    }
  }

  lemma ReflectsShrinks(env: Env, a: Db, b: Db, items: seq<Tombstone>, n: nat, versions: map<Scope, string>)
    requires Reflects(env, a, items, n, versions) && Shrinks(a, b)
    ensures Reflects(env, b, items, n, versions)
  {
    forall i, s | 0 <= i < n && i < |items| && Deletes(env, items[i], s, versions)
      ensures Gone(b, s)
    {
      ShrinksGone(a, b, s);
    }
  }

  lemma NoneLiveShrinks(env: Env, a: Db, b: Db, items: seq<Tombstone>, versions: map<Scope, string>)
    requires NoneLive(env, a, items, versions) && Shrinks(a, b)
    ensures NoneLive(env, b, items, versions)
  {
    forall i, s | 0 <= i < |items| && Deletes(env, items[i], s, versions)
      ensures NotLive(b, s)
    {
      ShrinksNotLive(a, b, s);
    }
  }

  /** The rows hold the effects of every item up to the watermark, and a closed service takes no new scopes. */
  ghost predicate GateFits(env: Env, v: Vault, items: seq<Tombstone>, versions: map<Scope, string>) {
    && (!v.db.gates.ready ==> !v.db.gates.mutations)
    && v.watermark <= |items| && Reflects(env, v.db, items, v.watermark, versions)
  }

  lemma GateShrinks(env: Env, v: Vault, u: Vault, items: seq<Tombstone>, versions: map<Scope, string>)
    requires GateFits(env, v, items, versions) && Shrinks(v.db, u.db) && u.watermark == v.watermark
    requires u.db.gates.ready == v.db.gates.ready && u.db.gates.mutations == v.db.gates.mutations
    ensures GateFits(env, u, items, versions)
  {
    ReflectsShrinks(env, v.db, u.db, items, v.watermark, versions);
  }

  lemma AskedShrinks(env: Env, a: Db, b: Db, versions: map<Scope, string>, epoch: nat, asked: set<Asked>)
    requires AllAskedFit(env, a, versions, epoch, asked) && Shrinks(a, b)
    ensures AllAskedFit(env, b, versions, epoch, asked)
  {
    forall q | q in asked
      ensures AskedFits(env, b, versions, epoch, q)
    {
      assert AskedFits(env, a, versions, epoch, q);
    }
  }

  /* ---- new scopes --------------------------------------------------------------- */

  lemma KnownGrow(env: Env, v: Vault, versions: map<Scope, string>, s: Scope, k: string)
    requires RowsKnown(env, v, versions) && OperationsFit(env, v, versions) && s !in versions
    ensures RowsKnown(env, v, versions[s := k]) && OperationsFit(env, v, versions[s := k])
  {
    var after := versions[s := k];
    forall x | x in v.db.installations
      ensures InstallationKnown(env, v, after, x)
    {
      assert InstallationKnown(env, v, versions, x);
    }
    forall l | l in v.db.links
      ensures LinkKnown(env, v, after, l)
    {
      assert LinkKnown(env, v, versions, l);
    }
    forall o | o in v.db.operations
      ensures OperationFits(env, v, after, o)
    {
      assert OperationFits(env, v, versions, o);
    }
  }

  /** An item deletes one scope only. */
  lemma DeletesOne(env: Env, item: Tombstone, s: Scope, r: Scope, a: map<Scope, string>, b: map<Scope, string>)
    requires Named(env) && Deletes(env, item, s, a) && Deletes(env, item, r, b)
    ensures s == r
  {
    var g :| item.deletionId == DeletionText(env, s, g);
    var h :| item.deletionId == DeletionText(env, r, h);
    DeletionTextNames(env, s, g, r, h);
  }

  lemma DeletesFrame(env: Env, item: Tombstone, versions: map<Scope, string>, s: Scope, k: string, r: Scope)
    requires Named(env) && ItemFits(env, item, versions) && s !in versions
    ensures Deletes(env, item, r, versions[s := k]) <==> Deletes(env, item, r, versions)
  {
    if Deletes(env, item, r, versions[s := k]) {
      var q :| Deletes(env, item, q, versions);
      DeletesOne(env, item, q, r, versions, versions[s := k]);
    }
  }

  lemma ItemsFitGrow(env: Env, items: seq<Tombstone>, versions: map<Scope, string>, s: Scope, k: string)
    requires Named(env) && s !in versions
    requires forall i :: 0 <= i < |items| ==> ItemFits(env, items[i], versions)
    ensures forall i :: 0 <= i < |items| ==> ItemFits(env, items[i], versions[s := k])
    ensures forall i, r :: 0 <= i < |items| && Deletes(env, items[i], r, versions[s := k]) ==> Deletes(env, items[i], r, versions)
  {
    forall i | 0 <= i < |items|
      ensures ItemFits(env, items[i], versions[s := k])
    {
      assert ItemFits(env, items[i], versions);
      var q :| Deletes(env, items[i], q, versions);
      DeletesFrame(env, items[i], versions, s, k, q);
    }
    forall i, r | 0 <= i < |items| && Deletes(env, items[i], r, versions[s := k])
      ensures Deletes(env, items[i], r, versions)
    {
      DeletesFrame(env, items[i], versions, s, k, r);
    }
  }

  /* ---- tombstones ------------------------------------------------------------------ */

  /** recordDeletionTombstone never conflicts with a row taken from the ledger. */
  lemma RecordNeverConflicts(rows: map<string, TombstoneRow>, byId: map<string, Tombstone>, item: Tombstone, head: int)
    requires TombstonesAgree(rows, byId) && item.deletionId in byId && byId[item.deletionId] == item
    ensures RecordTombstone(rows, item, head).Some?
    ensures TombstonesAgree(RecordTombstone(rows, item, head).value, byId)
  {
  }

  lemma TombstonesGrow(rows: map<string, TombstoneRow>, byId: map<string, Tombstone>, id: string, item: Tombstone)
    requires TombstonesAgree(rows, byId) && id !in byId
    ensures TombstonesAgree(rows, byId[id := item])
  {
  }

  /* ---- the replay loop ---------------------------------------------------------------- */

  /** Everything but the rows of the erased scope. */
  ghost predicate ErasesOnly(v: Vault, u: Vault) {
    && Shrinks(v.db, u.db) && KeepsColumns(v, u)
    && u.db.operations == v.db.operations && u.db.gates == v.db.gates
    && u.deletions == v.deletions && u.tombstones == v.tombstones && u.watermark == v.watermark
  }

  lemma EraseShrinks(v: Vault, item: Tombstone, t: Time)
    ensures ErasesOnly(v, Erase(v, item, t))
  {
    if item.scopeKind == "installation" && item.scopeMac in v.installationOf && v.installationOf[item.scopeMac] in v.db.installations {
      EraseInstallationShrinks(v, v.installationOf[item.scopeMac], item.deletionGeneration, t);
    } else if item.scopeKind == "account_link" && item.scopeMac in v.linkOf {
      EraseLinkShrinks(v, v.linkOf[item.scopeMac], t);
    }
  }

  lemma EraseInstallationShrinks(v: Vault, x: Id, generation: int, t: Time)
    requires x in v.db.installations
    ensures ErasesOnly(v, EraseInstallation(v, x, generation, t))
  {
    var u := EraseInstallation(v, x, generation, t);
    assert u.db.installations.Keys == v.db.installations.Keys;
  }

  lemma EraseLinkShrinks(v: Vault, l: Id, t: Time)
    ensures ErasesOnly(v, EraseLink(v, l, t))
  {
  }

  /** The item finds the row of its scope, because the row keeps the key version it was inserted with. */
  lemma EraseDeletes(env: Env, v: Vault, item: Tombstone, t: Time, s: Scope, versions: map<Scope, string>)
    requires RowsKnown(env, v, versions) && Deletes(env, item, s, versions)
    ensures Gone(Erase(v, item, t).db, s)
  {
    match s
    case OfInstallation(x) =>
      if x in v.db.installations {
        assert InstallationKnown(env, v, versions, x);
        InstallationErased(v, x, item.deletionGeneration, t);
      } else {
        EraseShrinks(v, item, t);
        assert Gone(v.db, s);
        ShrinksGone(v.db, Erase(v, item, t).db, s);
      }
    case OfLink(l) =>
      if l in v.db.links {
        assert LinkKnown(env, v, versions, l);
      } else {
        EraseShrinks(v, item, t);
      }
  }

  lemma InstallationErased(v: Vault, x: Id, generation: int, t: Time)
    requires x in v.db.installations
    ensures Gone(EraseInstallation(v, x, generation, t).db, OfInstallation(x))
  {
  }
}
