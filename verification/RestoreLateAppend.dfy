/**
 Histories that break the promise: a revocation reads its draining row, the database is
 set back to a backup from before the drain, and the revocation asks the ledger when the
 replay has opened the service again, or has confirmed the head and not yet committed.
 */
module RestoreLateAppend {
  import opened Base
  import opened Dispatch
  import opened Ledger
  import opened Restore
  import opened RestoreInvariant
  import opened RestoreTheorems
  import opened RestorePromise

  const REPLAY := Replay(0, 0, [])

  /** Who is registered, the revocation, and when. */
  datatype Case = Case(env: Env, x: Id, revocation: Id, deletedAt: int, t: Time)

  function Target(c: Case): Scope {
    OfInstallation(c.x)
  }

  function AskedBy(c: Case, w: World): Asked {
    Asked(c.revocation, Target(c), DeletionText(c.env, Target(c), 1), 1, w.keyVersion, w.epoch)
  }

  /** An empty open service whose ledger accepts the deletion. */
  ghost predicate Ready(c: Case, w: World) {
    && Named(c.env) && Fresh(w) && w.vault.db.gates.mutations && w.vault.db.clock <= c.t
    && ScopeMac(c.env, w.keyVersion, Target(c)) !in w.vault.installationOf
    && w.keyVersion in c.env.keys.versions
    && FieldsValid(AskedBy(c, w).deletionId, "installation", 1, c.deletedAt, w.keyVersion)
  }

  function Backup(c: Case, w: World): Vault {
    RegisterIn(c.env, w, c.x).vault
  }

  /** Everything up to the confirmed replay. */
  function UntilConfirmed(c: Case, w: World): seq<Restore.Step> {
    [DoRegister(c.x), DoBackup, DoDrainInstallation(c.x, {}, c.revocation, c.t, c.t), DoRead(c.revocation),
     DoRestore(Backup(c, w), 0), DoReplayRead(0), DoReplayConfirm(REPLAY)]
  }

  /** The revocation asks after the service was opened again. */
  function AppendsWhenOpen(c: Case, w: World): seq<Restore.Step> {
    UntilConfirmed(c, w) + [DoReplayCommit(REPLAY, c.t)] + [DoAppend(AskedBy(c, w), c.deletedAt)]
  }

  /** It asks between the confirmation of the head and the commit of the replay. */
  function AppendsBeforeOpening(c: Case, w: World): seq<Restore.Step> {
    UntilConfirmed(c, w) + [DoAppend(AskedBy(c, w), c.deletedAt)] + [DoReplayCommit(REPLAY, c.t)]
  }

  /* ---- step by step ---------------------------------------------------------------- */

  /** The rows of the registered installation, with nothing else. */
  ghost predicate Registered(c: Case, w: World, v: Vault) {
    && v.db.installations == map[c.x := Installation(Live, 0)]
    && v.db.operations == map[]
    && Target(c) in v.keyVersions && v.keyVersions[Target(c)] == w.keyVersion
  }

  lemma AfterRegister(c: Case, w: World)
    requires Ready(c, w)
    ensures RegisterIn(c.env, w, c.x) ==
      w.(vault := Backup(c, w), versions := map[Target(c) := w.keyVersion])
    ensures Registered(c, w, Backup(c, w)) && Backup(c, w).db.gates == w.vault.db.gates && Backup(c, w).db.clock <= c.t
  {
    assert w.versions[Target(c) := w.keyVersion] == map[Target(c) := w.keyVersion];
  }

  lemma AfterDrain(c: Case, w: World, v: World)
    requires Ready(c, w) && v.vault == Backup(c, w)
    ensures var after := Restore.Next(c.env, v, DoDrainInstallation(c.x, {}, c.revocation, c.t, c.t));
      && after == v.(vault := after.vault)
      && c.revocation in after.vault.db.operations && after.vault.db.operations[c.revocation] == Operation(Target(c), false)
      && c.revocation in after.vault.deletions && after.vault.deletions[c.revocation] == AskedBy(c, w).deletionId
      && Generation(after.vault.db, Target(c)) == Some(0)
      && Target(c) in after.vault.keyVersions && after.vault.keyVersions[Target(c)] == w.keyVersion
  {
    AfterRegister(c, w);
  }

  lemma AfterRead(c: Case, w: World, v: World)
    requires Ready(c, w) && v.epoch == w.epoch && v.asked == {}
    requires && c.revocation in v.vault.db.operations && v.vault.db.operations[c.revocation] == Operation(Target(c), false)
      && c.revocation in v.vault.deletions && v.vault.deletions[c.revocation] == AskedBy(c, w).deletionId
      && Generation(v.vault.db, Target(c)) == Some(0)
      && Target(c) in v.vault.keyVersions && v.vault.keyVersions[Target(c)] == w.keyVersion
    ensures Restore.Next(c.env, v, DoRead(c.revocation)) == v.(asked := {AskedBy(c, w)})
  {
    assert v.asked + {AskedBy(c, w)} == {AskedBy(c, w)};
  }

  lemma AfterReplayRead(c: Case, v: World)
    requires v.items == [] && v.replays == {} && v.confirmed == {} && !v.vault.db.gates.ready && v.vault.watermark == 0
    ensures var read := Restore.Next(c.env, v, DoReplayRead(0));
      && read == v.(replays := {REPLAY})
      && Restore.Next(c.env, read, DoReplayConfirm(REPLAY)) == v.(replays := {REPLAY}, confirmed := {REPLAY})
  {
    assert v.items[0..] == [];
    assert v.replays + {REPLAY} == {REPLAY} && v.confirmed + {REPLAY} == {REPLAY};
  }

  lemma Snoc(env: Env, w: World, steps: seq<Restore.Step>, step: Restore.Step)
    ensures History(env, w, steps + [step]) == Restore.Next(env, History(env, w, steps), step)
  {
    assert (steps + [step])[..|steps|] == steps;
  }

  /** The service just before the commit of the replay: closed, set back, with the revocation still asking. */
  ghost predicate Waiting(c: Case, w: World, v: World) {
    && v.items == [] && v.byId == map[] && v.asked == {AskedBy(c, w)} && v.commits == {}
    && v.versions == map[Target(c) := w.keyVersion]
    && v.vault == RestoreIn(w, Backup(c, w), 0).vault
    && v.confirmed == {REPLAY}
  }

  lemma UntilBackup(c: Case, w: World)
    requires Ready(c, w)
    ensures History(c.env, w, UntilConfirmed(c, w)[..2]) ==
      w.(vault := Backup(c, w), versions := map[Target(c) := w.keyVersion], backups := {Backup(c, w)})
  {
    var steps := UntilConfirmed(c, w);
    AfterRegister(c, w);
    var w1 := RegisterIn(c.env, w, c.x);
    assert w1.backups + {w1.vault} == {Backup(c, w)};
    Snoc(c.env, w, [], steps[0]);
    assert [] + [steps[0]] == steps[..1];
    Snoc(c.env, w, steps[..1], steps[1]);
    assert steps[..1] + [steps[1]] == steps[..2];
  }

  lemma UntilRead(c: Case, w: World)
    requires Ready(c, w)
    ensures var v := History(c.env, w, UntilConfirmed(c, w)[..4]);
      && v == w.(vault := v.vault, versions := map[Target(c) := w.keyVersion], backups := {Backup(c, w)}, asked := {AskedBy(c, w)})
  {
    var steps := UntilConfirmed(c, w);
    UntilBackup(c, w);
    Snoc(c.env, w, steps[..2], steps[2]);
    assert steps[..2] + [steps[2]] == steps[..3];
    AfterDrain(c, w, History(c.env, w, steps[..2]));
    Snoc(c.env, w, steps[..3], steps[3]);
    assert steps[..3] + [steps[3]] == steps[..4];
    AfterRead(c, w, History(c.env, w, steps[..3]));
  }

  lemma UntilWaiting(c: Case, w: World)
    requires Ready(c, w)
    ensures Waiting(c, w, History(c.env, w, UntilConfirmed(c, w)))
  {
    var steps := UntilConfirmed(c, w);
    UntilRead(c, w);
    var w4 := History(c.env, w, steps[..4]);
    Snoc(c.env, w, steps[..4], steps[4]);
    assert steps[..4] + [steps[4]] == steps[..5];
    var w5 := History(c.env, w, steps[..5]);
    assert w5 == RestoreIn(w4, Backup(c, w), 0);
    Snoc(c.env, w, steps[..5], steps[5]);
    assert steps[..5] + [steps[5]] == steps[..6];
    Snoc(c.env, w, steps[..6], steps[6]);
    assert steps[..6] + [steps[6]] == steps;
    AfterReplayRead(c, w5);
  }

  /* ---- both ends ------------------------------------------------------------------------ */

  /** An open service with a tombstone of a live installation, whose revocation cannot commit. */
  ghost predicate Broken(c: Case, w: World, v: World) {
    && v.vault.db.gates.ready
    && |v.items| == 1 && Deletes(c.env, v.items[0], Target(c), v.versions)
    && !NotLive(v.vault.db, Target(c))
    && forall p, t1, t2, t3 :: p in v.commits ==> CommitIn(v, p, t1, t2, t3) == v
  }

  lemma Appends(c: Case, w: World, v: World)
    requires Ready(c, w) && v.items == [] && v.byId == map[] && v.asked == {AskedBy(c, w)} && v.commits == {}
    requires v.versions == map[Target(c) := w.keyVersion]
    ensures var after := AppendIn(c.env, v, AskedBy(c, w), c.deletedAt);
      && |after.items| == 1 && Deletes(c.env, after.items[0], Target(c), v.versions)
      && after == v.(items := after.items, byId := after.byId,
                     commits := {InCommit(c.revocation, Target(c), after.items[0], 1)})
  {
    var item := NewItem(c.env, v, AskedBy(c, w), c.deletedAt);
    assert item.Some?;
    assert v.items + [item.value] == [item.value];
    assert v.commits + {InCommit(c.revocation, Target(c), item.value, 1)} == {InCommit(c.revocation, Target(c), item.value, 1)};
  }

  lemma Opens(c: Case, w: World, v: World)
    requires Ready(c, w) && v.vault == RestoreIn(w, Backup(c, w), 0).vault && v.confirmed == {REPLAY}
    ensures var after := ReplayCommitIn(v, REPLAY, c.t);
      && after == v.(vault := after.vault) && after.vault.db.gates.ready
      && after.vault.db.operations == map[] && after.vault.db.installations == map[c.x := Installation(Live, 0)]
  {
    AfterRegister(c, w);
  }

  lemma CannotCommit(c: Case, v: World, p: InCommit, t1: Time, t2: Time, t3: Time)
    requires v.vault.db.operations == map[] && v.vault.db.installations == map[c.x := Installation(Live, 0)]
    requires p.target == Target(c)
    ensures CommitIn(v, p, t1, t2, t3) == v
  {
    assert CommitRows(v.vault.db, p, t1, t2, t3).None?;
  }

  lemma NoRestoreElsewhere(c: Case, w: World, steps: seq<Restore.Step>)
    requires Ready(c, w) && UntilConfirmed(c, w) <= steps
    requires forall i :: 7 <= i < |steps| ==> !steps[i].DoRestore?
    ensures GoodHistory(c.env, w, steps)
  {
    forall i | 0 <= i < |steps|
      ensures GoodStep(c.env, History(c.env, w, steps[..i]), steps[i])
    {
      assert i < 7 ==> steps[i] == UntilConfirmed(c, w)[i];
    }
  }

  lemma OpenEnd(c: Case, w: World)
    requires Ready(c, w)
    ensures Broken(c, w, History(c.env, w, AppendsWhenOpen(c, w)))
  {
    UntilWaiting(c, w);
    var steps := UntilConfirmed(c, w);
    Snoc(c.env, w, steps, DoReplayCommit(REPLAY, c.t));
    Snoc(c.env, w, steps + [DoReplayCommit(REPLAY, c.t)], DoAppend(AskedBy(c, w), c.deletedAt));
    OpenThenAppend(c, w, History(c.env, w, steps));
  }

  lemma OpeningEnd(c: Case, w: World)
    requires Ready(c, w)
    ensures Broken(c, w, History(c.env, w, AppendsBeforeOpening(c, w)))
  {
    UntilWaiting(c, w);
    var steps := UntilConfirmed(c, w);
    Snoc(c.env, w, steps, DoAppend(AskedBy(c, w), c.deletedAt));
    Snoc(c.env, w, steps + [DoAppend(AskedBy(c, w), c.deletedAt)], DoReplayCommit(REPLAY, c.t));
    AppendThenOpen(c, w, History(c.env, w, steps));
  }

  /** In an empty service of any kind, for any installation: both histories are good, and both end with a live installation that has a tombstone. */
  lemma LateAppendLeavesLive(c: Case, w: World)
    requires Ready(c, w)
    ensures GoodHistory(c.env, w, AppendsWhenOpen(c, w)) && Broken(c, w, History(c.env, w, AppendsWhenOpen(c, w)))
    ensures GoodHistory(c.env, w, AppendsBeforeOpening(c, w)) && Broken(c, w, History(c.env, w, AppendsBeforeOpening(c, w)))
  {
    NoRestoreElsewhere(c, w, AppendsWhenOpen(c, w));
    NoRestoreElsewhere(c, w, AppendsBeforeOpening(c, w));
    OpenEnd(c, w);
    OpeningEnd(c, w);
  }

  lemma OpenThenAppend(c: Case, w: World, v: World)
    requires Ready(c, w) && Waiting(c, w, v)
    ensures Broken(c, w, AppendIn(c.env, ReplayCommitIn(v, REPLAY, c.t), AskedBy(c, w), c.deletedAt))
  {
    Opens(c, w, v);
    var reopened := ReplayCommitIn(v, REPLAY, c.t);
    Appends(c, w, reopened);
    var end := AppendIn(c.env, reopened, AskedBy(c, w), c.deletedAt);
    forall p, t1, t2, t3 | p in end.commits
      ensures CommitIn(end, p, t1, t2, t3) == end
    {
      CannotCommit(c, end, p, t1, t2, t3);
    }
  }

  lemma AppendThenOpen(c: Case, w: World, v: World)
    requires Ready(c, w) && Waiting(c, w, v)
    ensures Broken(c, w, ReplayCommitIn(AppendIn(c.env, v, AskedBy(c, w), c.deletedAt), REPLAY, c.t))
  {
    Appends(c, w, v);
    var appended := AppendIn(c.env, v, AskedBy(c, w), c.deletedAt);
    Opens(c, w, appended);
    var end := ReplayCommitIn(appended, REPLAY, c.t);
    forall p, t1, t2, t3 | p in end.commits
      ensures CommitIn(end, p, t1, t2, t3) == end
    {
      CannotCommit(c, end, p, t1, t2, t3);
    }
  }

  /* ---- one such service ------------------------------------------------------------------- */

  /** One key version, ids written in as many letters, and a service without rows. */
  const LETTERS := Env(Keys({"k"}, (version, input) => "0"), (n: Id) => seq(n, i => 'a'))
  const INSTANCE := Case(LETTERS, 1, 9, 1, 0)
  const SERVICE := World(
    Vault(Db(0, Gates(true, true, false, false), None, map[], map[], map[], map[], map[], map[]), map[], map[], map[], map[], map[], 0),
    [], map[], "k", {}, map[], {}, {}, {}, {}, 0)

  lemma InstanceReady()
    ensures Ready(INSTANCE, SERVICE)
  {
    forall a: Id, b: Id | LETTERS.name(a) == LETTERS.name(b)
      ensures a == b
    {
      assert |LETTERS.name(a)| == a && |LETTERS.name(b)| == b;
    }
    DeletionIsValid();
  }

  lemma DeletionIsValid()
    ensures FieldsValid(DeletionText(LETTERS, OfInstallation(1), 1), "installation", 1, 1, "k")
  {
    assert NameText(LETTERS, OfInstallation(1)) == ['a'];
    assert Digits(1) == ['1'];
    assert DeletionText(LETTERS, OfInstallation(1), 1) == "installation:a:1";
  }

  lemma BrokenBreaks(c: Case, w: World, steps: seq<Restore.Step>)
    requires Broken(c, w, History(c.env, w, steps))
    ensures !AlwaysKept(c.env, w, steps)
  {
    var end := History(c.env, w, steps);
    assert steps[..|steps|] == steps;
    assert Deletes(c.env, end.items[0], Target(c), end.versions);
    assert !Kept(c.env, History(c.env, w, steps[..|steps|]));
  }

  /** So the promise fails of the code. */
  lemma PromiseFails()
    ensures exists c: Case, w: World, steps: seq<Restore.Step> ::
      Ready(c, w) && GoodHistory(c.env, w, steps) && !AlwaysKept(c.env, w, steps)
  {
    InstanceReady();
    FailsWhenReady(INSTANCE, SERVICE);
  }

  lemma FailsWhenReady(c: Case, w: World)
    requires Ready(c, w)
    ensures exists steps: seq<Restore.Step> :: GoodHistory(c.env, w, steps) && !AlwaysKept(c.env, w, steps)
  {
    LateAppendLeavesLive(c, w);
    BrokenBreaks(c, w, AppendsWhenOpen(c, w));
  }
}
