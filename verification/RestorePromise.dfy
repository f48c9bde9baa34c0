/**
 When a scope with a tombstone can be live in an open service: exactly when a commit
 appends from a row it read before a restore, and when it does not matter.
 */
module RestorePromise {
  import opened Base
  import opened Dispatch
  import opened Ledger
  import opened Restore
  import opened RestoreInvariant
  import opened RestoreTheorems

  /** While the service is open, no scope with a tombstone is live. */
  ghost predicate Kept(env: Env, w: World) {
    w.vault.db.gates.ready ==> NoneLive(env, w.vault.db, w.items, w.versions)
  }

  /* ---- which live scopes a replay leaves live --------------------------------- */

  /** The queries of the replay loop select the row of the scope, or of the installation it belongs to. */
  predicate Selects(v: Vault, item: Tombstone, s: Scope) {
    || (item.scopeKind == "account_link" && item.scopeMac in v.linkOf && s == OfLink(v.linkOf[item.scopeMac]))
    || (&& item.scopeKind == "installation" && item.scopeMac in v.installationOf
        && var x := v.installationOf[item.scopeMac];
        && x in v.db.installations
        && match s
           case OfInstallation(y) => y == x
           case OfLink(l) => l in v.db.links && v.db.links[l].installation == x)
  }

  predicate SelectsAny(v: Vault, items: seq<Tombstone>, s: Scope) {
    exists i :: 0 <= i < |items| && Selects(v, items[i], s)
  }

  lemma EraseExactly(v: Vault, item: Tombstone, t: Time, s: Scope)
    ensures NotLive(Erase(v, item, t).db, s) <==> NotLive(v.db, s) || Selects(v, item, s)
  {
    if item.scopeKind == "installation" && item.scopeMac in v.installationOf && v.installationOf[item.scopeMac] in v.db.installations {
      EraseInstallationExactly(v, v.installationOf[item.scopeMac], item.deletionGeneration, t, s);
    }
  }

  lemma EraseInstallationExactly(v: Vault, x: Id, generation: int, t: Time, s: Scope)
    requires x in v.db.installations
    ensures NotLive(EraseInstallation(v, x, generation, t).db, s) <==>
      || NotLive(v.db, s)
      || match s case OfInstallation(y) => y == x case OfLink(l) => l in v.db.links && v.db.links[l].installation == x
  {
  }

  /** What one item leaves live is selected by the others as before. */
  lemma SelectionKept(v: Vault, item: Tombstone, other: Tombstone, t: Time, s: Scope)
    requires !NotLive(Erase(v, item, t).db, s)
    ensures Selects(Erase(v, item, t), other, s) <==> Selects(v, other, s)
  {
    EraseShrinks(v, item, t);
    var u := Erase(v, item, t);
    if s.OfLink? { assert s.link in u.db.links; }
    assert forall m :: m in u.linkOf ==> m in v.linkOf && u.linkOf[m] == v.linkOf[m];
  }

  lemma {:induction false} ReplayExactly(v: Vault, items: seq<Tombstone>, head: int, t: Time, s: Scope)
    requires ReplayAll(v, items, head, t).Some?
    ensures NotLive(ReplayAll(v, items, head, t).value.db, s) <==> NotLive(v.db, s) || SelectsAny(v, items, s)
    decreases |items|
  {
    if items != [] {
      var u := Erase(v, items[0], t);
      var v1 := ReplayItem(v, items[0], head, t).value;
      EraseExactly(v, items[0], t, s);
      ReplayExactly(v1, items[1..], head, t, s);
      assert forall item :: Selects(v1, item, s) <==> Selects(u, item, s);
      if NotLive(u.db, s) {
        assert Selects(v, items[0], s) ==> SelectsAny(v, items, s);
        StaysNotLive(v1, items[1..], head, t, s);
      } else {
        forall i | 0 <= i < |items[1..]|
          ensures Selects(v1, items[1..][i], s) <==> Selects(v, items[i + 1], s)
        {
          SelectionKept(v, items[0], items[i + 1], t, s);
        }
        if SelectsAny(v1, items[1..], s) {
          var i :| 0 <= i < |items[1..]| && Selects(v1, items[1..][i], s);
          assert Selects(v, items[i + 1], s);
        }
        if SelectsAny(v, items, s) {
          var i :| 0 <= i < |items| && Selects(v, items[i], s);
          assert Selects(v1, items[1..][i - 1], s);
        }
      }
    }
  }

  lemma {:induction false} StaysNotLive(v: Vault, items: seq<Tombstone>, head: int, t: Time, s: Scope)
    requires ReplayAll(v, items, head, t).Some? && NotLive(v.db, s)
    ensures NotLive(ReplayAll(v, items, head, t).value.db, s)
    decreases |items|
  {
    if items != [] {
      EraseExactly(v, items[0], t, s);
      StaysNotLive(ReplayItem(v, items[0], head, t).value, items[1..], head, t, s);
    }
  }

  /* ---- the steps that can break the promise -------------------------------------- */

  /** The condition a step could check: an append while open names no live scope, and a replay leaves live no scope appended after its confirmation. */
  ghost predicate Careful(env: Env, w: World, step: Restore.Step) {
    match step
    case DoAppend(a, deletedAt) =>
      w.vault.db.gates.ready && NewItem(env, w, a, deletedAt).Some? ==> NotLive(w.vault.db, a.target)
    case DoReplayCommit(r, _) =>
      MayOpen(w, r) ==>
        forall i, s :: r.head <= i < |w.items| && Deletes(env, w.items[i], s, w.versions) ==>
          NotLive(w.vault.db, s) || SelectsAny(w.vault, r.items, s)
    case _ => true
  }

  lemma NewScopeKeeps(env: Env, w: World, db: Db, s: Scope, k: string)
    requires Named(env) && WorldInv(env, w) && s !in w.versions
    requires NoneLive(env, w.vault.db, w.items, w.versions)
    requires forall r :: r != s && NotLive(w.vault.db, r) ==> NotLive(db, r)
    ensures NoneLive(env, db, w.items, w.versions[s := k])
  {
    ItemsFitGrow(env, w.items, w.versions, s, k);
    forall i, r | 0 <= i < |w.items| && Deletes(env, w.items[i], r, w.versions[s := k])
      ensures NotLive(db, r)
    {
      assert Deletes(env, w.items[i], r, w.versions);
    }
  }

  lemma AppendExactly(env: Env, w: World, a: Asked, deletedAt: int)
    requires Named(env) && WorldInv(env, w) && Kept(env, w)
    ensures Kept(env, AppendIn(env, w, a, deletedAt)) <==> Careful(env, w, DoAppend(a, deletedAt))
  {
    var item := NewItem(env, w, a, deletedAt);
    if item.Some? && w.vault.db.gates.ready {
      AppendedItem(env, w, a, deletedAt);
      var more := w.items + [item.value];
      assert more[|w.items|] == item.value;
      if NotLive(w.vault.db, a.target) {
        forall i, s | 0 <= i < |more| && Deletes(env, more[i], s, w.versions)
          ensures NotLive(w.vault.db, s)
        {
          if i == |w.items| { DeletesOne(env, item.value, s, a.target, w.versions, w.versions); }
          else { assert Deletes(env, w.items[i], s, w.versions); }
        }
      }
    }
  }

  /** The rows an opening replay leaves: the loop's, with the gates open. */
  lemma OpenedRows(env: Env, w: World, r: Replay, t: Time, s: Scope)
    requires WorldInv(env, w) && MayOpen(w, r)
    ensures ReplayCommitIn(w, r, t).vault.db.gates.ready
    ensures NotLive(ReplayCommitIn(w, r, t).vault.db, s) <==> NotLive(w.vault.db, s) || SelectsAny(w.vault, r.items, s)
  {
    ReplayCommitDeletes(env, w, r, t);
    ReplayExactly(w.vault, r.items, r.head, t, s);
  }

  lemma OpenedGone(env: Env, w: World, r: Replay, t: Time, i: nat, s: Scope)
    requires WorldInv(env, w) && MayOpen(w, r) && i < r.head && i < |w.items| && Deletes(env, w.items[i], s, w.versions)
    ensures NotLive(ReplayCommitIn(w, r, t).vault.db, s)
  {
    ReplayCommitDeletes(env, w, r, t);
    GoneNotLive(ReplayAll(w.vault, r.items, r.head, t).value.db, s);
  }

  lemma OpeningExactly(env: Env, w: World, r: Replay, t: Time)
    requires WorldInv(env, w) && Kept(env, w)
    ensures Kept(env, ReplayCommitIn(w, r, t)) <==> Careful(env, w, DoReplayCommit(r, t))
  {
    if MayOpen(w, r) {
      OpenedRows(env, w, r, t, OfInstallation(0));
      if Careful(env, w, DoReplayCommit(r, t)) {
        OpeningKeeps(env, w, r, t);
      }
      if Kept(env, ReplayCommitIn(w, r, t)) {
        OpeningNeeds(env, w, r, t);
      }
    }
  }

  lemma OpeningKeeps(env: Env, w: World, r: Replay, t: Time)
    requires WorldInv(env, w) && MayOpen(w, r) && Careful(env, w, DoReplayCommit(r, t))
    ensures NoneLive(env, ReplayCommitIn(w, r, t).vault.db, w.items, w.versions)
  {
    forall i, s | 0 <= i < |w.items| && Deletes(env, w.items[i], s, w.versions)
      ensures NotLive(ReplayCommitIn(w, r, t).vault.db, s)
    {
      if i < r.head { OpenedGone(env, w, r, t, i, s); } else { OpenedRows(env, w, r, t, s); }
    }
  }

  lemma OpeningNeeds(env: Env, w: World, r: Replay, t: Time)
    requires WorldInv(env, w) && MayOpen(w, r) && NoneLive(env, ReplayCommitIn(w, r, t).vault.db, w.items, w.versions)
    ensures Careful(env, w, DoReplayCommit(r, t))
  {
    forall i, s | r.head <= i < |w.items| && Deletes(env, w.items[i], s, w.versions)
      ensures NotLive(w.vault.db, s) || SelectsAny(w.vault, r.items, s)
    {
      OpenedRows(env, w, r, t, s);
    }
  }

  lemma ShrinkingKeeps(env: Env, w: World, u: Vault)
    requires Kept(env, w) && Shrinks(w.vault.db, u.db) && u.db.gates.ready == w.vault.db.gates.ready
    ensures Kept(env, w.(vault := u))
  {
    if u.db.gates.ready { NoneLiveShrinks(env, w.vault.db, u.db, w.items, w.versions); }
  }

  lemma NewScopeStep(env: Env, w: World, step: Restore.Step)
    requires Named(env) && WorldInv(env, w) && Kept(env, w) && (step.DoRegister? || step.DoLink?)
    ensures Kept(env, Restore.Next(env, w, step))
  {
    var after := Restore.Next(env, w, step);
    if after != w {
      if step.DoRegister? {
        RegisterSpares(w.vault.db, step.x);
        NewScopeKeeps(env, w, after.vault.db, OfInstallation(step.x), w.keyVersion);
      } else {
        LinkSpares(w.vault.db, step.l, step.x);
        NewScopeKeeps(env, w, after.vault.db, OfLink(step.l), w.keyVersion);
      }
    }
  }

  lemma DrainStep(env: Env, w: World, step: Restore.Step)
    requires Kept(env, w) && (step.DoDrainInstallation? || step.DoDrainLink?)
    ensures Kept(env, Restore.Next(env, w, step))
  {
    match step
    case DoDrainInstallation(x, also, operation, t1, t2) =>
      if DrainInstallation(w.vault.db, x, also, operation, t1, t2).Some? {
        DrainInstallationDrains(w.vault.db, x, also, operation, t1, t2);
        ShrinkingKeeps(env, w, Restore.Next(env, w, step).vault);
      }
    case DoDrainLink(x, l, operation, t1, t2) =>
      if DrainLink(w.vault.db, x, l, operation, t1, t2).Some? {
        DrainLinkDrains(w.vault.db, x, l, operation, t1, t2);
        ShrinkingKeeps(env, w, Restore.Next(env, w, step).vault);
      }
  }

  lemma CommitStep(env: Env, w: World, p: InCommit, t1: Time, t2: Time, t3: Time)
    requires Kept(env, w)
    ensures Kept(env, CommitIn(w, p, t1, t2, t3))
  {
    if p in w.commits && CommitVault(w.vault, p, t1, t2, t3).Some? {
      CommitRowsShrinks(w.vault.db, p, t1, t2, t3);
      ShrinkingKeeps(env, w, CommitIn(w, p, t1, t2, t3).vault);
    }
  }

  /** A step keeps the promise if and only if it is careful. */
  lemma StepExactly(env: Env, w: World, step: Restore.Step)
    requires Named(env) && WorldInv(env, w) && Kept(env, w)
    ensures Kept(env, Restore.Next(env, w, step)) <==> Careful(env, w, step)
  {
    match step
    case DoRegister(_) => NewScopeStep(env, w, step);
    case DoLink(_, _) => NewScopeStep(env, w, step);
    case DoDrainInstallation(_, _, _, _, _) => DrainStep(env, w, step);
    case DoDrainLink(_, _, _, _, _) => DrainStep(env, w, step);
    case DoWork(db) => if SameScopes(w.vault.db, db) { ShrinkingKeeps(env, w, w.vault.(db := db)); }
    case DoRead(_) =>
    case DoAppend(a, deletedAt) => AppendExactly(env, w, a, deletedAt);
    case DoCommit(p, t1, t2, t3) => CommitStep(env, w, p, t1, t2, t3);
    case DoRotate(_) =>
    case DoBackup =>
    case DoRestore(_, _) =>
    case DoReplayRead(_) =>
    case DoReplayConfirm(_) =>
    case DoReplayCommit(r, t) => OpeningExactly(env, w, r, t);
  }

  /* ---- whole histories -------------------------------------------------------------- */

  ghost predicate AlwaysKept(env: Env, w: World, steps: seq<Restore.Step>) {
    forall k: nat :: k <= |steps| ==> Kept(env, History(env, w, steps[..k]))
  }

  ghost predicate AllCareful(env: Env, w: World, steps: seq<Restore.Step>) {
    forall k: nat :: k < |steps| ==> Careful(env, History(env, w, steps[..k]), steps[k])
  }

  lemma GoodPrefix(env: Env, w: World, steps: seq<Restore.Step>, k: nat)
    requires GoodHistory(env, w, steps) && k <= |steps|
    ensures GoodHistory(env, w, steps[..k])
  {
    forall i | 0 <= i < k
      ensures GoodStep(env, History(env, w, steps[..k][..i]), steps[..k][i])
    {
      assert steps[..k][..i] == steps[..i];
    }
  }

  /** The state before and after step `k`. */
  lemma HistoryStep(env: Env, w: World, steps: seq<Restore.Step>, k: nat)
    requires Named(env) && Fresh(w) && GoodHistory(env, w, steps) && k < |steps|
    ensures WorldInv(env, History(env, w, steps[..k]))
    ensures History(env, w, steps[..k + 1]) == Restore.Next(env, History(env, w, steps[..k]), steps[k])
  {
    GoodPrefix(env, w, steps, k);
    HistoryKeeps(env, w, steps[..k]);
    assert steps[..k + 1][..k] == steps[..k];
  }

  lemma {:induction false} CarefulKeeps(env: Env, w: World, steps: seq<Restore.Step>, k: nat)
    requires Named(env) && Fresh(w) && GoodHistory(env, w, steps) && AllCareful(env, w, steps) && k <= |steps|
    ensures Kept(env, History(env, w, steps[..k]))
  {
    if k > 0 {
      CarefulKeeps(env, w, steps, k - 1);
      HistoryStep(env, w, steps, k - 1);
      StepExactly(env, History(env, w, steps[..k - 1]), steps[k - 1]);
    }
  }

  /** Over a whole history, no open service ever holds a live scope with a tombstone if and only if every step is careful. */
  lemma DeletedStaysDeleted(env: Env, w: World, steps: seq<Restore.Step>)
    requires Named(env) && Fresh(w) && GoodHistory(env, w, steps)
    ensures AlwaysKept(env, w, steps) <==> AllCareful(env, w, steps)
  {
    if AllCareful(env, w, steps) {
      forall k: nat | k <= |steps|
        ensures Kept(env, History(env, w, steps[..k]))
      {
        CarefulKeeps(env, w, steps, k);
      }
    }
    if AlwaysKept(env, w, steps) {
      forall k: nat | k < |steps|
        ensures Careful(env, History(env, w, steps[..k]), steps[k])
      {
        HistoryStep(env, w, steps, k);
        assert Kept(env, History(env, w, steps[..k])) && Kept(env, History(env, w, steps[..k + 1]));
        StepExactly(env, History(env, w, steps[..k]), steps[k]);
      }
    }
  }

  /* ---- no restore between read and append -------------------------------------------- */

  /** The commit that appends read its rows after the last restore. */
  predicate Prompt(w: World, step: Restore.Step) {
    step.DoAppend? ==> step.asked.epoch == w.epoch
  }

  ghost predicate PromptHistory(env: Env, w: World, steps: seq<Restore.Step>) {
    forall k: nat :: k < |steps| ==> Prompt(History(env, w, steps[..k]), steps[k])
  }

  /** What a confirmed replay will not see is not live. */
  ghost predicate LateFits(env: Env, db: Db, items: seq<Tombstone>, head: nat, versions: map<Scope, string>) {
    forall i, s :: head <= i < |items| && Deletes(env, items[i], s, versions) ==> NotLive(db, s)
  }

  ghost predicate PromptInv(env: Env, w: World) {
    Kept(env, w) && forall r :: r in w.confirmed ==> LateFits(env, w.vault.db, w.items, r.head, w.versions)
  }

  lemma PromptStep(env: Env, w: World, step: Restore.Step)
    requires Named(env) && WorldInv(env, w) && PromptInv(env, w) && Prompt(w, step)
    ensures Careful(env, w, step)
    ensures PromptInv(env, Restore.Next(env, w, step))
  {
    if step.DoAppend? && NewItem(env, w, step.asked, step.deletedAt).Some? {
      AppendedItem(env, w, step.asked, step.deletedAt);
    }
    StepExactly(env, w, step);
    var after := Restore.Next(env, w, step);
    if !after.vault.db.gates.ready {
      if !step.DoRestore? { StaysClosed(env, w, step); }
      forall r | r in after.confirmed
        ensures LateFits(env, after.vault.db, after.items, r.head, after.versions)
      {
        LateStays(env, w, step, r);
      }
    }
  }

  lemma LateShrinks(env: Env, a: Db, b: Db, items: seq<Tombstone>, head: nat, versions: map<Scope, string>)
    requires LateFits(env, a, items, head, versions) && Shrinks(a, b)
    ensures LateFits(env, b, items, head, versions)
  {
    forall i, s | head <= i < |items| && Deletes(env, items[i], s, versions)
      ensures NotLive(b, s)
    {
      ShrinksNotLive(a, b, s);
    }
  }

  /** A closed service takes no new scope and no drain. */
  lemma ClosedRefuses(env: Env, w: World, step: Restore.Step)
    requires GateFits(env, w.vault, w.items, w.versions) && !w.vault.db.gates.ready
    requires step.DoRegister? || step.DoLink? || step.DoDrainInstallation? || step.DoDrainLink?
    ensures Restore.Next(env, w, step) == w
  {
  }

  /** These leave the gates alone, and an opening replay opens them. */
  lemma StaysClosed(env: Env, w: World, step: Restore.Step)
    requires WorldInv(env, w) && !step.DoRestore? && !Restore.Next(env, w, step).vault.db.gates.ready
    ensures !w.vault.db.gates.ready
    ensures step.DoReplayCommit? ==> Restore.Next(env, w, step) == w
  {
    match step
    case DoCommit(p, t1, t2, t3) =>
      if CommitVault(w.vault, p, t1, t2, t3).Some? { CommitRowsShrinks(w.vault.db, p, t1, t2, t3); }
    case DoReplayCommit(r, t) => if MayOpen(w, r) { ReplayCommitDeletes(env, w, r, t); }
    case _ =>
  }

  /** While the service is closed. */
  lemma LateStays(env: Env, w: World, step: Restore.Step, r: Replay)
    requires Named(env) && GateFits(env, w.vault, w.items, w.versions) && Prompt(w, step)
    requires AllAskedFit(env, w.vault.db, w.versions, w.epoch, w.asked)
    requires r in w.confirmed ==> LateFits(env, w.vault.db, w.items, r.head, w.versions)
    requires step.DoRestore? || !w.vault.db.gates.ready
    requires step.DoReplayCommit? ==> Restore.Next(env, w, step) == w
    requires r in Restore.Next(env, w, step).confirmed
    ensures var after := Restore.Next(env, w, step); LateFits(env, after.vault.db, after.items, r.head, after.versions)
  {
    match step
    case DoRegister(_) => ClosedRefuses(env, w, step);
    case DoLink(_, _) => ClosedRefuses(env, w, step);
    case DoDrainInstallation(_, _, _, _, _) => ClosedRefuses(env, w, step);
    case DoDrainLink(_, _, _, _, _) => ClosedRefuses(env, w, step);
    case DoWork(db) => if SameScopes(w.vault.db, db) { LateShrinks(env, w.vault.db, db, w.items, r.head, w.versions); }
    case DoRead(_) =>
    case DoAppend(a, deletedAt) => LateAppend(env, w, a, deletedAt, r);
    case DoCommit(p, t1, t2, t3) => LateCommit(env, w, p, t1, t2, t3, r);
    case DoRotate(_) =>
    case DoBackup =>
    case DoRestore(backup, _) =>
    case DoReplayRead(_) =>
    case DoReplayConfirm(_) =>
    case DoReplayCommit(_, _) =>
  }

  lemma LateCommit(env: Env, w: World, p: InCommit, t1: Time, t2: Time, t3: Time, r: Replay)
    requires LateFits(env, w.vault.db, w.items, r.head, w.versions)
    ensures LateFits(env, CommitIn(w, p, t1, t2, t3).vault.db, w.items, r.head, w.versions)
  {
    if p in w.commits && CommitVault(w.vault, p, t1, t2, t3).Some? {
      CommitRowsShrinks(w.vault.db, p, t1, t2, t3);
      LateShrinks(env, w.vault.db, CommitIn(w, p, t1, t2, t3).vault.db, w.items, r.head, w.versions);
    }
  }

  lemma LateAppend(env: Env, w: World, a: Asked, deletedAt: int, r: Replay)
    requires Named(env) && AllAskedFit(env, w.vault.db, w.versions, w.epoch, w.asked) && a.epoch == w.epoch
    requires LateFits(env, w.vault.db, w.items, r.head, w.versions)
    ensures LateFits(env, w.vault.db, AppendIn(env, w, a, deletedAt).items, r.head, w.versions)
  {
    var item := NewItem(env, w, a, deletedAt);
    if item.Some? {
      AppendedItem(env, w, a, deletedAt);
      var more := w.items + [item.value];
      forall i, s | r.head <= i < |more| && Deletes(env, more[i], s, w.versions)
        ensures NotLive(w.vault.db, s)
      {
        if i == |w.items| { DeletesOne(env, item.value, s, a.target, w.versions, w.versions); }
        else { assert Deletes(env, w.items[i], s, w.versions); }
      }
    }
  }

  lemma {:induction false} PromptKeeps(env: Env, w: World, steps: seq<Restore.Step>, k: nat)
    requires Named(env) && Fresh(w) && GoodHistory(env, w, steps) && PromptHistory(env, w, steps) && k <= |steps|
    ensures PromptInv(env, History(env, w, steps[..k]))
  {
    if k > 0 {
      PromptKeeps(env, w, steps, k - 1);
      HistoryStep(env, w, steps, k - 1);
      PromptStep(env, History(env, w, steps[..k - 1]), steps[k - 1]);
    }
  }

  /** If no restore falls between a commit's read and its append, a scope with a tombstone is never live while the service is open. */
  lemma PromptCommitsSuffice(env: Env, w: World, steps: seq<Restore.Step>)
    requires Named(env) && Fresh(w) && GoodHistory(env, w, steps) && PromptHistory(env, w, steps)
    ensures AlwaysKept(env, w, steps)
  {
    forall k: nat | k <= |steps|
      ensures Kept(env, History(env, w, steps[..k]))
    {
      PromptKeeps(env, w, steps, k);
    }
  }
}
