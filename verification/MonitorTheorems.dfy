/** Epochs, streams and what listeners are told. */
module MonitorTheorems {
  import opened Base
  import opened Monitor

  /* ---- what a listener was told ----------------------------------------------- */

  /** The epoch of the last baseline in a log. */
  function Current(log: seq<Update>): Option<nat> {
    if log == [] then None
    else
      var last := log[|log| - 1];
      if last.Baseline? then Some(last.epoch) else Current(log[..|log| - 1])
  }

  /** Every delta comes from the stream of the last baseline before it. */
  predicate Orderly(log: seq<Update>) {
    log == [] ||
    (Orderly(log[..|log| - 1]) &&
     (log[|log| - 1].Delta? ==> Current(log[..|log| - 1]) == Some(log[|log| - 1].epoch)))
  }

  /** Position `j` is the last baseline before position `i`. */
  predicate BaselineOf(log: seq<Update>, j: nat, i: nat) {
    && j < i < |log| && log[j].Baseline?
    && forall k :: j < k < i ==> log[k].Delta?
  }

  predicate LastBaseline(log: seq<Update>, j: nat) {
    j < |log| && log[j].Baseline? && forall k :: j < k < |log| ==> log[k].Delta?
  }

  lemma {:induction false} CurrentAt(log: seq<Update>)
    requires Current(log).Some?
    ensures exists j: nat :: LastBaseline(log, j) && log[j].epoch == Current(log).value
  {
    var init := log[..|log| - 1];
    if log[|log| - 1].Delta? {
      CurrentAt(init);
      var j: nat :| LastBaseline(init, j) && init[j].epoch == Current(init).value;
      assert forall k :: 0 <= k < |init| ==> log[k] == init[k];
      assert LastBaseline(log, j);
    } else {
      assert LastBaseline(log, |log| - 1);
    }
  }

  /** Read position by position: a delta has a baseline before it, and its epoch is that of the last one. */
  lemma {:induction false} OrderlyMeans(log: seq<Update>, i: nat)
    requires Orderly(log) && i < |log| && log[i].Delta?
    ensures exists j: nat :: BaselineOf(log, j, i) && log[j].epoch == log[i].epoch
  {
    var init := log[..|log| - 1];
    if i < |log| - 1 {
      OrderlyMeans(init, i);
      var j: nat :| BaselineOf(init, j, i) && init[j].epoch == init[i].epoch;
      assert forall k :: 0 <= k < |init| ==> log[k] == init[k];
      assert BaselineOf(log, j, i);
    } else {
      CurrentAt(init);
      var j: nat :| LastBaseline(init, j) && init[j].epoch == Current(init).value;
      assert forall k :: 0 <= k < |init| ==> log[k] == init[k];
      assert BaselineOf(log, j, i);
    }
  }

  /* ---- the invariant of one entry ------------------------------------------------ */

  /** The controller a task captured is the entry's current one, or was aborted. */
  predicate Captured(e: Core, c: nat) {
    && c < e.epochs
    && (c in e.aborted <==> e.controller.None?)
    && (e.controller.Some? ==> e.controller == Some(c))
    && e.stream.None?
  }

  predicate TaskFits(e: Core) {
    match e.task
    case None => true
    case Some(AskAcquire) => e.lease.None? && !e.accepted
    case Some(Acquiring) => e.lease.None? && !e.accepted
    case Some(AskRenew) => true
    case Some(Renewing) => true
    case Some(AskSnapshot(c)) => Captured(e, c) && !e.accepted && c !in e.streams
    case Some(Loading(c)) => Captured(e, c) && !e.accepted && c !in e.streams
    case Some(AskOpen(c)) => Captured(e, c) && c !in e.streams && (c !in e.aborted ==> e.accepted)
    case Some(Opening(c)) => Captured(e, c) && c in e.streams && e.streams[c] && (c !in e.aborted ==> e.accepted)
  }

  predicate TaskHolds(e: Core, c: nat) {
    e.task == Some(AskOpen(c)) || e.task == Some(Opening(c))
  }

  /** An accepted baseline belongs to a registered, leased entry and to its live controller. */
  predicate AcceptedFits(e: Core) {
    e.accepted ==>
      && e.registered && e.lease.Some? && e.controller.Some?
      && (e.stream == e.controller || (e.stream.None? && TaskHolds(e, e.controller.value)))
  }

  /** The entry holds the close function of one stream: opened under its live controller, after its baseline. */
  predicate StreamFits(e: Core) {
    e.stream.Some? ==>
      && e.accepted && e.controller == e.stream
      && e.stream.value in e.streams && e.streams[e.stream.value]
  }

  /** A stream whose controller was not aborted is the entry's; one the source still has is that one or is being opened. */
  predicate SourceFits(e: Core, c: nat)
    requires c in e.streams
  {
    && c < e.epochs
    && (c !in e.aborted ==> e.controller == Some(c) && (e.stream == Some(c) || e.task == Some(Opening(c))))
    && (e.streams[c] ==> e.stream == Some(c) || e.task == Some(Opening(c)))
  }

  ghost predicate CoreInv(e: Core) {
    && (e.controller.Some? ==> e.controller.value < e.epochs && e.controller.value !in e.aborted)
    && (forall c :: c in e.aborted ==> c < e.epochs)
    && TaskFits(e) && AcceptedFits(e) && StreamFits(e)
    && (forall c :: c in e.streams ==> SourceFits(e, c))
  }

  lemma StopKeeps(e: Core)
    requires CoreInv(e)
    ensures CoreInv(Stop(e))
  {
  }

  lemma RetireKeeps(e: Core)
    requires CoreInv(e)
    ensures CoreInv(Retire(e))
  {
    StopKeeps(e);
  }

  lemma ContinueKeeps(e: Core)
    requires CoreInv(e) && (e.stream.None? ==> !e.accepted)
    requires e.task.None? || e.task == Some(Renewing)
    ensures CoreInv(Continue(e))
  {
  }

  lemma BeginKeeps(e: Core, renewDue: bool)
    requires CoreInv(e)
    ensures CoreInv(Begin(e, renewDue))
  {
  }

  lemma AuthorizedKeeps(e: Core, ok: bool)
    requires CoreInv(e)
    ensures CoreInv(Authorized(e, ok))
  {
    if e.task.Some? && e.task.value.AskOpen? {
      if ok { OpenKeeps(e, e.task.value.epoch); } else { StopKeeps(e); }
    }
  }

  lemma OpenKeeps(e: Core, c: nat)
    requires CoreInv(e) && e.task == Some(AskOpen(c))
    ensures CoreInv(e.(task := Some(Opening(c)), streams := e.streams[c := true]))
  {
    var after := e.(task := Some(Opening(c)), streams := e.streams[c := true]);
    forall d | d in after.streams
      ensures SourceFits(after, d)
    {
      if d != c { assert SourceFits(e, d); }
    }
  }

  lemma AcquiredKeeps(e: Core, generation: Option<nat>)
    requires CoreInv(e)
    ensures CoreInv(Acquired(e, generation))
  {
  }

  lemma RenewedKeeps(e: Core, ok: bool)
    requires CoreInv(e)
    ensures CoreInv(Renewed(e, ok))
  {
    if e.task == Some(Renewing) {
      if ok { ContinueKeeps(e.(timer := true)); } else { StopKeeps(e); }
    }
  }

  lemma LoadedKeeps(e: Core, snapshot: Value)
    requires CoreInv(e)
    ensures CoreInv(Loaded(e, snapshot))
  {
  }

  lemma OpenedKeeps(e: Core)
    requires CoreInv(e)
    ensures CoreInv(Opened(e))
  {
  }

  lemma DoneKeeps(e: Core)
    requires CoreInv(e) && (e.task.Some? ==> !e.task.value.Opening?) && (e.accepted ==> e.stream.Some?)
    ensures CoreInv(Done(e))
  {
  }

  lemma FailedKeeps(e: Core)
    requires CoreInv(e)
    ensures CoreInv(Failed(e))
  {
    if e.task.Some? && e.task.value.Opening? {
      OpeningFailedKeeps(e, e.task.value.epoch);
    } else if e.task.Some? && (e.task.value.AskSnapshot? || e.task.value.Loading? || e.task.value.AskOpen?) {
      StopKeeps(e);
      DoneKeeps(Stop(e));
    } else {
      DoneKeeps(e);
    }
  }

  lemma OpeningFailedKeeps(e: Core, c: nat)
    requires CoreInv(e) && e.task == Some(Opening(c))
    ensures CoreInv(Done(Stop(e.(streams := e.streams[c := false]))))
  {
    var after := Done(Stop(e.(streams := e.streams[c := false])));
    assert after.streams == e.streams[c := false];
    forall d | d in after.streams
      ensures SourceFits(after, d)
    {
      assert SourceFits(e, d);
    }
  }

  lemma ExpireKeeps(e: Core)
    requires CoreInv(e)
    ensures CoreInv(Expire(e))
  {
    StopKeeps(e);
  }

  lemma ReactKeeps(e: Core, event: Event)
    requires CoreInv(e)
    ensures CoreInv(ReactCore(e, event))
  {
    match event
    case OnBegin(renewDue) => BeginKeeps(e, renewDue);
    case OnAuthorized(ok) => AuthorizedKeeps(e, ok);
    case OnAcquired(generation) => AcquiredKeeps(e, generation);
    case OnRenewed(ok) => RenewedKeeps(e, ok);
    case OnLoaded(snapshot) => LoadedKeeps(e, snapshot);
    case OnOpened => OpenedKeeps(e);
    case OnFailed => FailedKeeps(e);
    case OnDelta(_, _) =>
    case OnGapOf(c) => StopKeeps(e);
    case OnExpire => ExpireKeeps(e);
  }

  /* ---- logs ------------------------------------------------------------------------- */

  /** Log and current baseline of one listener. */
  predicate ToldFits(log: seq<Update>, listens: bool, accepted: bool, controller: Option<nat>) {
    Orderly(log) && (accepted && listens ==> Current(log) == controller)
  }

  ghost predicate LogsFit(e: Entry) {
    forall n :: ToldFits(Told(e, n), n in e.listeners, e.core.accepted, e.core.controller)
  }

  lemma PublishAppends(e: Entry, u: Update, n: Listener)
    ensures n in Publish(e, u) <==> n in e.logs || n in e.listeners
    ensures n in Publish(e, u) ==> Publish(e, u)[n] == if n in e.listeners then Told(e, n) + [u] else Told(e, n)
  {
  }

  lemma Appended(log: seq<Update>, u: Update)
    ensures Current(log + [u]) == if u.Baseline? then Some(u.epoch) else Current(log)
    ensures Orderly(log + [u]) <==> Orderly(log) && (u.Delta? ==> Current(log) == Some(u.epoch))
  {
    assert (log + [u])[..|log + [u]| - 1] == log;
  }

  /** A baseline is told under the controller it is accepted with, a delta under the current one, and nothing else changes the baseline. */
  predicate TellsRight(e: Core, after: Core, u: Option<Update>) {
    && (after.accepted ==>
          if u.Some? && u.value.Baseline? then after.controller == Some(u.value.epoch)
          else e.accepted && after.controller == e.controller)
    && (u.Some? && u.value.Delta? ==> e.accepted && e.controller == Some(u.value.epoch))
  }

  lemma AnnouncedRight(e: Core, event: Event)
    requires CoreInv(e)
    ensures TellsRight(e, ReactCore(e, event), Announced(e, event))
  {
    if event.OnDelta? && PassesDelta(e, event.epoch) { assert SourceFits(e, event.epoch); }
  }

  lemma OneListener(log: seq<Update>, listens: bool, e: Core, after: Core, u: Option<Update>)
    requires ToldFits(log, listens, e.accepted, e.controller) && TellsRight(e, after, u)
    ensures ToldFits(if u.Some? && listens then log + [u.value] else log, listens, after.accepted, after.controller)
  {
    if u.Some? { Appended(log, u.value); }
  }

  lemma ToldAfter(e: Entry, event: Event, n: Listener)
    ensures var u := Announced(e.core, event);
      Told(React(e, event), n) == if u.Some? && n in e.listeners then Told(e, n) + [u.value] else Told(e, n)
  {
    var u := Announced(e.core, event);
    if u.Some? { PublishAppends(e, u.value, n); }
  }

  lemma ReactKeepsLogs(e: Entry, event: Event)
    requires CoreInv(e.core) && LogsFit(e)
    ensures LogsFit(React(e, event))
  {
    AnnouncedRight(e.core, event);
    forall n
      ensures ToldFits(Told(React(e, event), n), n in e.listeners, React(e, event).core.accepted, React(e, event).core.controller)
    {
      ToldAfter(e, event, n);
      OneListener(Told(e, n), n in e.listeners, e.core, ReactCore(e.core, event), Announced(e.core, event));
    }
  }

  /** A listener may join unless the accepted snapshot was `undefined`. */
  predicate MayJoin(e: Entry) {
    e.core.accepted ==> e.core.value.Some?
  }

  lemma JoinKeepsLogs(e: Entry, n: Listener)
    requires CoreInv(e.core) && LogsFit(e) && MayJoin(e)
    ensures LogsFit(Join(e, n))
  {
    var after := Join(e, n);
    forall m
      ensures ToldFits(Told(after, m), m in after.listeners, e.core.accepted, e.core.controller)
    {
      assert ToldFits(Told(e, m), m in e.listeners, e.core.accepted, e.core.controller);
      if e.core.controller.Some? { Appended(Told(e, n), Baseline(e.core.controller.value, e.core.value)); }
    }
  }

  /** Fewer listeners, or no accepted baseline, ask nothing new of the logs. */
  lemma FewerKeepsLogs(e: Entry, after: Entry)
    requires LogsFit(e) && after.logs == e.logs && after.listeners <= e.listeners
    requires after.core.accepted ==> after.core == e.core
    ensures LogsFit(after)
  {
    forall n
      ensures ToldFits(Told(after, n), n in after.listeners, after.core.accepted, after.core.controller)
    {
      assert ToldFits(Told(e, n), n in e.listeners, e.core.accepted, e.core.controller);
    }
  }

  /* ---- the registry ------------------------------------------------------------------ */

  predicate IndexedAs(w: Registry, key: Key) {
    && key in w.entries && w.entries[key] in w.table
    && w.table[w.entries[key]].key == key && w.table[w.entries[key]].core.registered && w.table[w.entries[key]].listeners != {}
  }

  ghost predicate IndexFits(w: Registry) {
    && (forall key :: key in w.entries ==> IndexedAs(w, key))
    && (forall id :: id in w.table ==> id < w.next)
    && (forall id :: id in w.table && w.table[id].core.registered ==>
          w.table[id].key in w.entries && w.entries[w.table[id].key] == id)
  }

  lemma ReactKeepsIdentity(e: Core, event: Event)
    ensures ReactCore(e, event).registered == e.registered
  {
  }

  lemma ResumeKeepsIndex(w: Registry, id: EntryId, event: Event)
    requires IndexFits(w) && id in w.table
    ensures IndexFits(w.(table := w.table[id := React(w.table[id], event)]))
  {
    ReactKeepsIdentity(w.table[id].core, event);
    var after := w.(table := w.table[id := React(w.table[id], event)]);
    forall key | key in after.entries
      ensures IndexedAs(after, key)
    {
      assert IndexedAs(w, key);
    }
  }

  lemma SubscribeKeepsIndex(w: Registry, key: Key, account: bool, n: Listener, limit: nat)
    requires IndexFits(w)
    ensures IndexFits(SubscribeTo(w, key, account, n, limit))
  {
    var after := SubscribeTo(w, key, account, n, limit);
    forall k | k in after.entries
      ensures IndexedAs(after, k)
    {
      if k in w.entries { assert IndexedAs(w, k); }
    }
  }

  lemma UnsubscribeKeepsIndex(w: Registry, key: Key, n: Listener)
    requires IndexFits(w)
    ensures IndexFits(UnsubscribeFrom(w, key, n))
  {
    var after := UnsubscribeFrom(w, key, n);
    forall k | k in after.entries
      ensures IndexedAs(after, k)
    {
      assert IndexedAs(w, k);
      if key in w.entries { assert IndexedAs(w, key); }
    }
  }

  lemma CloseKeepsIndex(w: Registry)
    requires IndexFits(w)
    ensures IndexFits(CloseAll(w))
  {
    var after := CloseAll(w);
    forall id | id in after.table
      ensures !after.table[id].core.registered
    {
      if w.table[id].core.registered { assert w.entries[w.table[id].key] in w.entries.Values; }
    }
  }

  lemma NextKeepsIndex(w: Registry, step: Step, limit: nat)
    requires IndexFits(w)
    ensures IndexFits(Next(w, step, limit))
  {
    match step
    case Subscribe(key, account, n) => SubscribeKeepsIndex(w, key, account, n, limit);
    case Unsubscribe(key, n) => UnsubscribeKeepsIndex(w, key, n);
    case ReleaseReturns(key) => assert forall k :: IndexedAs(Next(w, step, limit), k) == IndexedAs(w, k);
    case Resume(id, event) => if id in w.table { ResumeKeepsIndex(w, id, event); }
    case Close => CloseKeepsIndex(w);
  }

  /** Every way a step changes an entry. */
  ghost predicate Changes(e: Entry, after: Entry, step: Step) {
    match step
    case Subscribe(_, _, n) => after == Join(e, n)
    case Unsubscribe(_, n) => after == Leave(e, n) || after == Leave(e, n).(core := Retire(e.core))
    case ReleaseReturns(_) => false
    case Resume(_, event) => after == React(e, event)
    case Close => after == e.(core := Retire(e.core))
  }

  lemma NextChanges(w: Registry, step: Step, limit: nat, id: EntryId)
    requires IndexFits(w) && id in Next(w, step, limit).table
    ensures var after := Next(w, step, limit).table[id];
      if id in w.table then after == w.table[id] || Changes(w.table[id], after, step)
      else step.Subscribe? && after == Join(NewEntry(step.key, step.account), step.listener)
  {
  }

  lemma ChangesKeepCore(e: Entry, after: Entry, step: Step)
    requires CoreInv(e.core) && Changes(e, after, step)
    ensures CoreInv(after.core)
  {
    RetireKeeps(e.core);
    if step.Resume? { ReactKeeps(e.core, step.event); }
  }

  lemma ChangesKeepLogs(e: Entry, after: Entry, step: Step)
    requires CoreInv(e.core) && LogsFit(e) && Changes(e, after, step) && (step.Subscribe? ==> MayJoin(e))
    ensures LogsFit(after)
  {
    match step
    case Subscribe(_, _, n) => JoinKeepsLogs(e, n);
    case Unsubscribe(_, n) => FewerKeepsLogs(e, after);
    case ReleaseReturns(_) =>
    case Resume(_, event) => ReactKeepsLogs(e, event);
    case Close => FewerKeepsLogs(e, after);
  }

  lemma NewKeeps(key: Key, account: bool, n: Listener)
    ensures CoreInv(Join(NewEntry(key, account), n).core) && LogsFit(Join(NewEntry(key, account), n))
  {
    JoinKeepsLogs(NewEntry(key, account), n);
  }

  ghost predicate StreamsInv(w: Registry) {
    IndexFits(w) && forall id :: id in w.table ==> CoreInv(w.table[id].core)
  }

  ghost predicate RegistryInv(w: Registry) {
    StreamsInv(w) && forall id :: id in w.table ==> LogsFit(w.table[id])
  }

  /** No listener joins an accepted snapshot that was `undefined`. */
  predicate GoodStep(w: Registry, step: Step) {
    step.Subscribe? ==> forall id :: id in w.table && w.table[id].key == step.key ==> MayJoin(w.table[id])
  }

  lemma NextKeepsStreams(w: Registry, step: Step, limit: nat)
    requires StreamsInv(w)
    ensures StreamsInv(Next(w, step, limit))
  {
    NextKeepsIndex(w, step, limit);
    var after := Next(w, step, limit);
    forall id | id in after.table
      ensures CoreInv(after.table[id].core)
    {
      NextChanges(w, step, limit, id);
      if id in w.table {
        if after.table[id] != w.table[id] { ChangesKeepCore(w.table[id], after.table[id], step); }
      } else {
        NewKeeps(step.key, step.account, step.listener);
      }
    }
  }

  lemma NextKeeps(w: Registry, step: Step, limit: nat)
    requires RegistryInv(w) && GoodStep(w, step)
    ensures RegistryInv(Next(w, step, limit))
  {
    NextKeepsStreams(w, step, limit);
    var after := Next(w, step, limit);
    forall id | id in after.table
      ensures LogsFit(after.table[id])
    {
      NextChanges(w, step, limit, id);
      if id in w.table {
        if after.table[id] != w.table[id] {
          if step.Subscribe? { JoinedHasKey(w, step, limit, id); }
          ChangesKeepLogs(w.table[id], after.table[id], step);
        }
      } else {
        NewKeeps(step.key, step.account, step.listener);
      }
    }
  }

  lemma JoinedHasKey(w: Registry, step: Step, limit: nat, id: EntryId)
    requires IndexFits(w) && step.Subscribe? && id in w.table && Next(w, step, limit).table[id] != w.table[id]
    ensures w.table[id].key == step.key
  {
    assert step.key in w.entries ==> IndexedAs(w, step.key);
  }

  function Run(steps: seq<Step>, limit: nat): Registry {
    if steps == [] then EMPTY else Next(Run(steps[..|steps| - 1], limit), steps[|steps| - 1], limit)
  }

  ghost predicate GoodRun(steps: seq<Step>, limit: nat) {
    forall i :: 0 <= i < |steps| ==> GoodStep(Run(steps[..i], limit), steps[i])
  }

  lemma {:induction false} RunKeeps(steps: seq<Step>, limit: nat)
    requires GoodRun(steps, limit)
    ensures RegistryInv(Run(steps, limit))
  {
    if steps != [] {
      var init := steps[..|steps| - 1];
      forall i | 0 <= i < |init|
        ensures GoodStep(Run(init[..i], limit), init[i])
      {
        assert init[..i] == steps[..i];
      }
      RunKeeps(init, limit);
      assert GoodStep(Run(steps[..|steps| - 1], limit), steps[|steps| - 1]);
      NextKeeps(Run(init, limit), steps[|steps| - 1], limit);
    }
  }

  /** Every delta a listener sees follows a baseline, and comes from the stream opened under the last one. */
  lemma DeltasFollowTheirBaseline(steps: seq<Step>, limit: nat, id: EntryId, n: Listener, i: nat)
    requires GoodRun(steps, limit) && id in Run(steps, limit).table
    requires i < |Told(Run(steps, limit).table[id], n)| && Told(Run(steps, limit).table[id], n)[i].Delta?
    ensures var log := Told(Run(steps, limit).table[id], n);
      exists j: nat :: BaselineOf(log, j, i) && log[j].epoch == log[i].epoch
  {
    RunKeeps(steps, limit);
    var e := Run(steps, limit).table[id];
    assert ToldFits(Told(e, n), n in e.listeners, e.core.accepted, e.core.controller);
    OrderlyMeans(Told(e, n), i);
  }

  /* ---- streams, with no assumption on snapshots ------------------------------------------ */

  lemma {:induction false} RunKeepsStreams(steps: seq<Step>, limit: nat)
    ensures StreamsInv(Run(steps, limit))
  {
    if steps != [] {
      RunKeepsStreams(steps[..|steps| - 1], limit);
      NextKeepsStreams(Run(steps[..|steps| - 1], limit), steps[|steps| - 1], limit);
    }
  }

  /** In every interleaving an entry with an open stream is registered, leased, and its controller is not aborted. */
  lemma OpenStreamIsOwned(steps: seq<Step>, limit: nat, id: EntryId)
    requires id in Run(steps, limit).table && Run(steps, limit).table[id].core.stream.Some?
    ensures var w := Run(steps, limit);
      var e := w.table[id];
      && e.key in w.entries && w.entries[e.key] == id
      && e.core.lease.Some? && e.core.accepted
      && e.core.controller == e.core.stream && e.core.controller.value !in e.core.aborted
  {
    RunKeepsStreams(steps, limit);
    assert CoreInv(Run(steps, limit).table[id].core);
  }

  /** The source never has two streams of one entry. */
  lemma OneStreamPerEntry(steps: seq<Step>, limit: nat, id: EntryId, c: nat, d: nat)
    requires id in Run(steps, limit).table
    requires var e := Run(steps, limit).table[id].core;
      c in e.streams && e.streams[c] && d in e.streams && e.streams[d]
    ensures c == d
  {
    RunKeepsStreams(steps, limit);
    var e := Run(steps, limit).table[id].core;
    assert SourceFits(e, c) && SourceFits(e, d);
  }

  /* ---- where the promises stop ---------------------------------------------------------------- */

  /** For a newcomer that joins an accepted snapshot, the next delta is in order exactly when the snapshot was not `undefined`. */
  lemma LateJoinInOrder(e: Entry, n: Listener, c: nat, value: Value)
    requires CoreInv(e.core) && e.core.accepted && Told(e, n) == [] && PassesDelta(e.core, c)
    ensures Orderly(Told(React(Join(e, n), OnDelta(c, value)), n)) <==> MayJoin(e)
  {
    assert SourceFits(e.core, c);
    var joined := Join(e, n);
    PublishAppends(joined, Delta(c, value), n);
    Appended(Told(joined, n), Delta(c, value));
    Appended([], Baseline(c, e.core.value));
    assert [] + [Baseline(c, e.core.value)] == [Baseline(c, e.core.value)];
  }

  function ReactAll(e: Core, events: seq<Event>): Core
    decreases |events|
  {
    if events == [] then e else ReactAll(ReactCore(e, events[0]), events[1..])
  }

  /** A new entry's first reconcile, with every answer positive. */
  function FirstReconcile(generation: nat, snapshot: Value): seq<Event> {
    [OnBegin(false), OnAuthorized(true), OnAcquired(Some(generation)), OnAuthorized(true),
     OnLoaded(snapshot), OnAuthorized(true), OnOpened]
  }

  /** It opens a stream, whatever the snapshot: an `undefined` one is accepted too. */
  lemma FirstReconcileOpens(generation: nat, snapshot: Value)
    ensures var e := ReactAll(NEW_CORE, FirstReconcile(generation, snapshot));
      e.accepted && e.value == snapshot && e.stream == Some(0) && PassesDelta(e, 0)
  {
    var u := FirstReconcile(generation, snapshot);
    var e1 := NEW_CORE.(task := Some(AskAcquire));
    var e2 := NEW_CORE.(task := Some(Acquiring));
    var e3 := NEW_CORE.(lease := Some(generation), timer := true, controller := Some(0), epochs := 1, task := Some(AskSnapshot(0)));
    var e4 := e3.(task := Some(Loading(0)));
    var e5 := e3.(accepted := true, value := snapshot, task := Some(AskOpen(0)));
    var e6 := e5.(task := Some(Opening(0)), streams := map[0 := true]);
    var e7 := e6.(task := None, stream := Some(0));
    assert ReactAll(NEW_CORE, u) == ReactAll(e1, u[1..]);
    assert u[1..][1..] == u[2..] && ReactAll(e1, u[1..]) == ReactAll(e2, u[2..]);
    assert u[2..][1..] == u[3..] && ReactAll(e2, u[2..]) == ReactAll(e3, u[3..]);
    assert u[3..][1..] == u[4..] && ReactAll(e3, u[3..]) == ReactAll(e4, u[4..]);
    assert u[4..][1..] == u[5..] && ReactAll(e4, u[4..]) == ReactAll(e5, u[5..]);
    assert u[5..][1..] == u[6..] && ReactAll(e5, u[5..]) == ReactAll(e6, u[6..]);
    assert u[6..][1..] == [] && ReactAll(e6, u[6..]) == e7;
  }

  /** A key whose last unsubscribe still awaits the lease release loses its slot even if it was subscribed again. */
  lemma ResubscribedKeyLosesSlot(w: Registry, key: Key, n: Listener, limit: nat)
    requires key !in w.entries && key in w.slots && key in w.releasing
    ensures var again := Next(w, Subscribe(key, true, n), limit);
      var after := Next(again, ReleaseReturns(key), limit);
      key in after.entries && after.table[after.entries[key]].account && key !in after.slots
  {
  }

  /** Slots are kept exactly as long as no release of a subscribed key is awaited. */
  ghost predicate SlotsHeld(w: Registry) {
    forall key :: key in w.entries && w.entries[key] in w.table && w.table[w.entries[key]].account ==> key in w.slots
  }

  lemma ReleaseKeepsSlots(w: Registry, key: Key, limit: nat)
    requires IndexFits(w) && SlotsHeld(w) && key in w.releasing
    ensures SlotsHeld(Next(w, ReleaseReturns(key), limit)) <==> !(key in w.entries && w.table[w.entries[key]].account)
  {
  }

  lemma OtherStepsKeepSlots(w: Registry, step: Step, limit: nat)
    requires IndexFits(w) && SlotsHeld(w) && !step.ReleaseReturns?
    ensures SlotsHeld(Next(w, step, limit))
  {
    match step
    case Subscribe(key, account, n) => SubscribeKeepsSlots(w, key, account, n, limit);
    case Unsubscribe(key, n) => UnsubscribeKeepsSlots(w, key, n);
    case Resume(_, _) =>
    case Close =>
  }

  lemma SubscribeKeepsSlots(w: Registry, key: Key, account: bool, n: Listener, limit: nat)
    requires IndexFits(w) && SlotsHeld(w)
    ensures SlotsHeld(SubscribeTo(w, key, account, n, limit))
  {
    var after := SubscribeTo(w, key, account, n, limit);
    forall k | k in after.entries && after.entries[k] in after.table && after.table[after.entries[k]].account
      ensures k in after.slots
    {
      if k in w.entries { assert IndexedAs(w, k); }
    }
  }

  lemma UnsubscribeKeepsSlots(w: Registry, key: Key, n: Listener)
    requires IndexFits(w) && SlotsHeld(w)
    ensures SlotsHeld(UnsubscribeFrom(w, key, n))
  {
    var after := UnsubscribeFrom(w, key, n);
    forall k | k in after.entries && after.entries[k] in after.table && after.table[after.entries[k]].account
      ensures k in after.slots
    {
      assert IndexedAs(w, k);
    }
  }

  /** No release returns for an account that was subscribed again meanwhile. */
  predicate ReleaseIsClean(w: Registry, step: Step) {
    step.ReleaseReturns? && step.key in w.releasing && step.key in w.entries && w.entries[step.key] in w.table ==>
      !w.table[w.entries[step.key]].account
  }

  /** In every run whose releases are clean, each subscribed account holds its slot. */
  lemma {:induction false} RunKeepsSlots(steps: seq<Step>, limit: nat)
    requires forall i :: 0 <= i < |steps| ==> ReleaseIsClean(Run(steps[..i], limit), steps[i])
    ensures SlotsHeld(Run(steps, limit))
  {
    if steps != [] {
      var init, last := steps[..|steps| - 1], steps[|steps| - 1];
      forall i | 0 <= i < |init|
        ensures ReleaseIsClean(Run(init[..i], limit), init[i])
      {
        assert init[..i] == steps[..i];
      }
      RunKeepsSlots(init, limit);
      RunKeepsStreams(init, limit);
      assert ReleaseIsClean(Run(init, limit), last);
      SlotStep(Run(init, limit), last, limit);
    }
  }

  lemma SlotStep(w: Registry, step: Step, limit: nat)
    requires IndexFits(w) && SlotsHeld(w) && ReleaseIsClean(w, step)
    ensures SlotsHeld(Next(w, step, limit))
  {
    if step.ReleaseReturns? {
      if step.key in w.releasing { ReleaseKeepsSlots(w, step.key, limit); }
    } else {
      OtherStepsKeepSlots(w, step, limit);
    }
  }
}
