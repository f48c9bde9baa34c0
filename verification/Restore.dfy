/**
 Revocation commits, backups and restore replay: the rows and the ledger of one
 service over a history in which the database may be set back to a backup.
 */
module Restore {
  import opened Base
  import opened Dispatch
  import opened Ledger

  /** The MAC keys, and the text behind each modelled id. */
  datatype Env = Env(keys: Keys, name: Id -> string)

  /** Two ids are two texts. */
  ghost predicate Named(env: Env) {
    forall a, b :: env.name(a) == env.name(b) ==> a == b
  }

  function Digits(n: nat): string {
    if n < 10 then [('0' as int + n) as char] else Digits(n / 10) + [('0' as int + n % 10) as char]
  }

  function KindText(s: Scope): string {
    if s.OfInstallation? then "installation" else "account_link"
  }

  function NameText(env: Env, s: Scope): string {
    match s case OfInstallation(x) => env.name(x) case OfLink(l) => env.name(l)
  }

  function DeletionText(env: Env, s: Scope, generation: nat): string {
    KindText(s) + ":" + NameText(env, s) + ":" + Digits(generation)
  }

  function ScopeMac(env: Env, keyVersion: string, s: Scope): string {
    env.keys.mac(keyVersion, ScopeInput(KindText(s), NameText(env, s)))
  }

  /** notification_deletion_tombstones. */
  datatype TombstoneRow = TombstoneRow(
    kind: string, scopeMac: string, generation: int, sequence: int, keyVersion: string, durableHead: int)

  /**
   What a backup holds. `installationOf` and `linkOf` are the unique indexes on
   recovery_scope_mac, `keyVersions` the recovery_key_version columns and `deletions`
   the deletion_id column of the revocation operations. */
  datatype Vault = Vault(
    db: Db,
    installationOf: map<string, Id>,
    linkOf: map<string, Id>,
    keyVersions: map<Scope, string>,
    deletions: map<Id, string>,
    tombstones: map<string, TombstoneRow>,
    watermark: nat)

  /* ---- recordDeletionTombstone ------------------------------------------ */

  predicate SameTombstone(row: TombstoneRow, item: Tombstone, sequence: int) {
    && row.kind == item.scopeKind && row.scopeMac == item.scopeMac
    && row.generation == item.deletionGeneration && row.sequence == sequence
    && row.keyVersion == item.keyVersion
  }

  /** None when the row conflicts and the transaction rolls back. */
  function RecordTombstone(rows: map<string, TombstoneRow>, item: Tombstone, head: int): Option<map<string, TombstoneRow>> {
    if item.deletionId !in rows then
      Some(rows[item.deletionId :=
        TombstoneRow(item.scopeKind, item.scopeMac, item.deletionGeneration, item.sequence, item.keyVersion, head)])
    else
      var row := rows[item.deletionId];
      if SameTombstone(row, item, item.sequence)
      then Some(rows[item.deletionId := row.(durableHead := if head > row.durableHead then head else row.durableHead)])
      else None
  }

  /* ---- the replay loop --------------------------------------------------- */

  /** The body of the loop over installations that carry the item's scope MAC. */
  function EraseInstallation(v: Vault, x: Id, generation: int, t: Time): Vault
    requires x in v.db.installations
  {
    var fenced := Fence(v.db, OfInstallation(x), true, t, t);
    var gone := LinksOf(fenced, x);
    var dropped := DropLinks(fenced, gone);
    var row := dropped.installations[x];
    v.(db := dropped.(
         tokens := map y | y in dropped.tokens && y != x :: dropped.tokens[y],
         installations := dropped.installations[x :=
           Installation(Inactive, if generation > row.generation then generation else row.generation)]),
       linkOf := map m | m in v.linkOf && v.linkOf[m] !in gone :: v.linkOf[m],
       keyVersions := map s | s in v.keyVersions && (s.OfLink? ==> s.link !in gone) :: v.keyVersions[s])
  }

  function EraseLink(v: Vault, l: Id, t: Time): Vault {
    v.(db := DropLinks(Fence(v.db, OfLink(l), true, t, t), {l}),
       linkOf := map m | m in v.linkOf && v.linkOf[m] != l :: v.linkOf[m],
       keyVersions := map s | s in v.keyVersions && s != OfLink(l) :: v.keyVersions[s])
  }

  function Erase(v: Vault, item: Tombstone, t: Time): Vault {
    if item.scopeKind == "installation" then
      if item.scopeMac in v.installationOf && v.installationOf[item.scopeMac] in v.db.installations
      then EraseInstallation(v, v.installationOf[item.scopeMac], item.deletionGeneration, t) else v
    else if item.scopeKind == "account_link" then
      if item.scopeMac in v.linkOf then EraseLink(v, v.linkOf[item.scopeMac], t) else v
    else v
  }

  function ReplayItem(v: Vault, item: Tombstone, head: int, t: Time): Option<Vault> {
    var rows := RecordTombstone(v.tombstones, item, head);
    if rows.Some? then Some(Erase(v, item, t).(tombstones := rows.value)) else None
  }

  function ReplayAll(v: Vault, items: seq<Tombstone>, head: int, t: Time): Option<Vault>
    decreases |items|
  {
    if items == [] then Some(v)
    else
      var v1 := ReplayItem(v, items[0], head, t);
      if v1.None? then None else ReplayAll(v1.value, items[1..], head, t)
  }

  /** The loop of replayRestore over the items it verified. */
  method ReplayLoop(v: Vault, items: seq<Tombstone>, head: int, t: Time) returns (r: Option<Vault>)
    ensures r == ReplayAll(v, items, head, t)
  {
    var current := v;
    for i := 0 to |items|
      invariant ReplayAll(current, items[i..], head, t) == ReplayAll(v, items, head, t)
    {
      assert items[i..][0] == items[i] && items[i..][1..] == items[i + 1..];
      var rows := RecordTombstone(current.tombstones, items[i], head);
      current := Erase(current, items[i], t);
      if rows.None? {
        return None;
      }
      current := current.(tombstones := rows.value);
    }
    return Some(current);
  }

  /* ---- the history -------------------------------------------------------- */

  /** What a commit read, before it asks the ledger; `epoch` is the number of restores the read had behind it. */
  datatype Asked = Asked(operation: Id, target: Scope, deletionId: string, generation: int, keyVersion: string, epoch: nat)

  /** A commit between its ledger append and its transaction. */
  datatype InCommit = InCommit(operation: Id, target: Scope, item: Tombstone, head: int)

  /** A replay after its verified read of the ledger. */
  datatype Replay = Replay(watermark: nat, head: nat, items: seq<Tombstone>)

  /**
   `versions` remembers the key version every scope id was inserted with, in any branch
   of the history, and `epoch` counts the restores. `confirmed` are the replays whose
   transaction saw the head it expected and has not committed; loading a backup ends
   these transactions, while `asked` and `commits` live in the memory of the service. */
  datatype World = World(
    vault: Vault,
    items: seq<Tombstone>,
    byId: map<string, Tombstone>,
    keyVersion: string,
    backups: set<Vault>,
    versions: map<Scope, string>,
    asked: set<Asked>,
    commits: set<InCommit>,
    replays: set<Replay>,
    confirmed: set<Replay>,
    epoch: nat)

  datatype Step =
    | DoRegister(x: Id)
    | DoLink(l: Id, x: Id)
    | DoDrainInstallation(x: Id, alsoLinks: set<Id>, operation: Id, t1: Time, t2: Time)
    | DoDrainLink(x: Id, l: Id, operation: Id, t1: Time, t2: Time)
    | DoWork(db: Db)
    | DoRead(operation: Id)
    | DoAppend(asked: Asked, deletedAt: int)
    | DoCommit(pending: InCommit, t1: Time, t2: Time, t3: Time)
    | DoRotate(keyVersion: string)
    | DoBackup
    | DoRestore(backup: Vault, watermark: nat)
    | DoReplayRead(watermark: nat)
    | DoReplayConfirm(replay: Replay)
    | DoReplayCommit(replay: Replay, t: Time)

  /** Any transaction that leaves scopes, operations and gates of mutation alone: claims, sends, recovery, rules. */
  predicate SameScopes(a: Db, b: Db) {
    && a.installations == b.installations && a.links == b.links && a.operations == b.operations
    && a.tokens.Keys == b.tokens.Keys
    && a.gates.ready == b.gates.ready && a.gates.mutations == b.gates.mutations
  }

  function RegisterIn(env: Env, w: World, x: Id): World {
    var s, mac := OfInstallation(x), ScopeMac(env, w.keyVersion, OfInstallation(x));
    var after := Register(w.vault.db, x);
    if after.None? || mac in w.vault.installationOf || s in w.versions then w
    else w.(
      vault := w.vault.(db := after.value,
                        installationOf := w.vault.installationOf[mac := x],
                        keyVersions := w.vault.keyVersions[s := w.keyVersion]),
      versions := w.versions[s := w.keyVersion])
  }

  function LinkIn(env: Env, w: World, l: Id, x: Id): World {
    var s, mac := OfLink(l), ScopeMac(env, w.keyVersion, OfLink(l));
    var after := LinkAccount(w.vault.db, l, x);
    if after.None? || mac in w.vault.linkOf || s in w.versions then w
    else w.(
      vault := w.vault.(db := after.value,
                        linkOf := w.vault.linkOf[mac := l],
                        keyVersions := w.vault.keyVersions[s := w.keyVersion]),
      versions := w.versions[s := w.keyVersion])
  }

  function Generation(db: Db, s: Scope): Option<nat> {
    match s
    case OfInstallation(x) => if x in db.installations then Some(db.installations[x].generation) else None
    case OfLink(l) => if l in db.links then Some(db.links[l].generation) else None
  }

  /** Both drains; the operation row keeps the deletion id of the next generation. */
  function DrainIn(env: Env, w: World, after: Option<Db>, operation: Id, s: Scope): World {
    var generation := Generation(w.vault.db, s);
    if after.None? || generation.None? then w
    else w.(vault := w.vault.(
      db := after.value,
      deletions := w.vault.deletions[operation := DeletionText(env, s, generation.value + 1)]))
  }

  /** The SELECT of a commit: the operation row joined with the row of its scope. */
  function ReadIn(w: World, operation: Id): World {
    var v := w.vault;
    if operation !in v.db.operations || operation !in v.deletions || v.db.operations[operation].committed then w
    else
      var s := v.db.operations[operation].target;
      var generation := Generation(v.db, s);
      if generation.None? || s !in v.keyVersions then w
      else w.(asked := w.asked +
        {Asked(operation, s, v.deletions[operation], generation.value + 1, v.keyVersions[s], w.epoch)})
  }

  /** What a commit asks the ledger to append. */
  function DeletionOf(env: Env, a: Asked, deletedAt: int): Deletion {
    Deletion(a.deletionId, KindText(a.target), NameText(env, a.target), a.generation, deletedAt)
  }

  /** The tombstone the ledger gets, when the deletion id is new and the fields and the key are accepted. */
  function NewItem(env: Env, w: World, a: Asked, deletedAt: int): Option<Tombstone> {
    var d := DeletionOf(env, a, deletedAt);
    if a !in w.asked || a.deletionId in w.byId
       || !FieldsValid(d.deletionId, d.scopeKind, d.deletionGeneration, d.deletedAt, a.keyVersion) then None
    else
      var sealed := Seal(env.keys, d, a.keyVersion, ScopeMac(env, a.keyVersion, a.target), |w.items| + 1);
      if sealed.Ok? then Some(sealed.value) else None
  }

  /** appendDeletionTombstone on what the commit had read, whatever the rows are by now. */
  function AppendIn(env: Env, w: World, a: Asked, deletedAt: int): World {
    var item := NewItem(env, w, a, deletedAt);
    if item.Some? then w.(
      items := w.items + [item.value],
      byId := w.byId[a.deletionId := item.value],
      commits := w.commits + {InCommit(a.operation, a.target, item.value, |w.items| + 1)})
    else if a in w.asked && a.deletionId in w.byId then
      w.(commits := w.commits + {InCommit(a.operation, a.target, w.byId[a.deletionId], |w.items|)})
    else w
  }

  /** The transaction on the scope's rows; it runs on the read scope even if the operation row is not there. */
  function CommitRows(db: Db, p: InCommit, t1: Time, t2: Time, t3: Time): Option<Db> {
    var known := p.operation in db.operations;
    var db1 := if known then db else db.(operations := db.operations[p.operation := Operation(p.target, false)]);
    var after := if p.target.OfInstallation? then CommitInstallation(db1, p.operation, t1, t2, t3)
                 else CommitLink(db1, p.operation, t1, t2, t3);
    if after.None? || db1.operations[p.operation].target != p.target then None
    else Some(if known then after.value else after.value.(operations := db.operations))
  }

  /** The rest of the transaction: the tombstone and the columns of the rows that went. */
  function CommitWith(v: Vault, p: InCommit, after: Db): Option<Vault> {
    if p.operation in v.db.operations && v.db.operations[p.operation].committed then Some(v.(db := after))
    else
      var rows := RecordTombstone(v.tombstones, p.item, p.head);
      if rows.None? then None
      else Some(v.(
        db := after,
        linkOf := map m | m in v.linkOf && v.linkOf[m] in after.links :: v.linkOf[m],
        keyVersions := map s | s in v.keyVersions && (s.OfLink? ==> s.link in after.links) :: v.keyVersions[s],
        tombstones := rows.value))
  }

  function CommitVault(v: Vault, p: InCommit, t1: Time, t2: Time, t3: Time): Option<Vault> {
    var after := CommitRows(v.db, p, t1, t2, t3);
    if after.None? then None else CommitWith(v, p, after.value)
  }

  function CommitIn(w: World, p: InCommit, t1: Time, t2: Time, t3: Time): World {
    var after := CommitVault(w.vault, p, t1, t2, t3);
    if p in w.commits && after.Some? then w.(vault := after.value) else w
  }

  /** A backup is loaded and prepareRestore closes every gate at its watermark. */
  function RestoreIn(w: World, backup: Vault, watermark: nat): World {
    w.(vault := backup.(db := backup.db.(gates := Gates(false, false, false, false)), watermark := watermark),
       confirmed := {},
       epoch := w.epoch + 1)
  }

  /** verifyTombstoneReplay, for a watermark read from the service state at any earlier time. */
  function ReplayReadIn(env: Env, w: World, mark: nat): World {
    if mark > |w.items| || !Acceptable(env.keys, mark, |w.items|, w.items[mark..]) then w
    else w.(replays := w.replays + {Replay(mark, |w.items|, w.items[mark..])})
  }

  /** The transaction found the state it read, and the ledger has not advanced. */
  predicate MayConfirm(w: World, r: Replay) {
    r in w.replays && !w.vault.db.gates.ready && w.vault.watermark == r.watermark && |w.items| == r.head
  }

  predicate MayOpen(w: World, r: Replay) {
    r in w.confirmed && !w.vault.db.gates.ready && w.vault.watermark == r.watermark
  }

  /** The transaction's effect, at its COMMIT. */
  function ReplayCommitIn(w: World, r: Replay, t: Time): World {
    if !MayOpen(w, r) then w
    else
      var after := ReplayAll(w.vault, r.items, r.head, t);
      if after.None? then w
      else w.(vault := after.value.(
        db := after.value.db.(gates := Gates(true, true, false, false)), watermark := r.head))
  }

  function Next(env: Env, w: World, step: Step): World {
    match step
    case DoRegister(x) => RegisterIn(env, w, x)
    case DoLink(l, x) => LinkIn(env, w, l, x)
    case DoDrainInstallation(x, also, operation, t1, t2) =>
      DrainIn(env, w, DrainInstallation(w.vault.db, x, also, operation, t1, t2), operation, OfInstallation(x))
    case DoDrainLink(x, l, operation, t1, t2) =>
      DrainIn(env, w, DrainLink(w.vault.db, x, l, operation, t1, t2), operation, OfLink(l))
    case DoWork(db) => if SameScopes(w.vault.db, db) then w.(vault := w.vault.(db := db)) else w
    case DoRead(operation) => ReadIn(w, operation)
    case DoAppend(a, deletedAt) => AppendIn(env, w, a, deletedAt)
    case DoCommit(p, t1, t2, t3) => CommitIn(w, p, t1, t2, t3)
    case DoRotate(keyVersion) => w.(keyVersion := keyVersion)
    case DoBackup => w.(backups := w.backups + {w.vault})
    case DoRestore(backup, watermark) => if backup in w.backups then RestoreIn(w, backup, watermark) else w
    case DoReplayRead(mark) => ReplayReadIn(env, w, mark)
    case DoReplayConfirm(r) => if MayConfirm(w, r) then w.(confirmed := w.confirmed + {r}) else w
    case DoReplayCommit(r, t) => ReplayCommitIn(w, r, t)
  }
}
