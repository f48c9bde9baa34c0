/**
 What stops a stream and what that means for listeners: after a gap, a lease that expired or
 could not be renewed, a failed reconcile, the last unsubscribe or close, nothing of the old
 stream is ever told again, and every later delta follows a baseline told since.
 */
module MonitorStops {
  import opened Base
  import opened Monitor
  import opened MonitorTheorems

  /* ---- what stops ------------------------------------------------------------ */

  /** Nothing is accepted any more, the controller is aborted, and the source has no stream of it but one still being opened. */
  predicate Stopped(e: Core, after: Core) {
    && !after.accepted && after.value.None? && after.stream.None? && after.controller.None?
    && after.aborted == e.aborted + (if e.controller.Some? then {e.controller.value} else {})
    && after.streams.Keys == e.streams.Keys
    && (forall c :: c in after.streams && after.streams[c] ==> e.task == Some(Opening(c)))
    && after.epochs == e.epochs
  }

  /** A gap of a live stream stops it; the lease and a task under way stay. */
  lemma GapStops(e: Core, c: nat)
    requires CoreInv(e) && c in e.streams && c !in e.aborted
    ensures var after := ReactCore(e, OnGapOf(c));
      && Stopped(e, after) && e.controller == Some(c) && c in after.aborted
      && (e.stream.Some? ==> e.stream == Some(c) && e.streams[c] && !after.streams[c])
      && after.lease == e.lease && after.timer == e.timer && after.registered == e.registered && after.task == e.task
  {
    assert SourceFits(e, c);
  }

  /** A gap of a stream that was stopped before, or never opened, does nothing. */
  lemma StaleGapIgnored(e: Core, c: nat)
    requires c !in e.streams || c in e.aborted
    ensures ReactCore(e, OnGapOf(c)) == e
  {
  }

  /** When the expiry timer runs out the lease is gone and the stream stops. */
  lemma ExpiryStops(e: Core)
    requires CoreInv(e) && e.timer
    ensures var after := ReactCore(e, OnExpire);
      Stopped(e, after) && after.lease.None? && !after.timer && after.registered == e.registered && after.task == e.task
  {
    StreamsCovered(e);
  }

  /** So it does when the lease cannot be renewed. */
  lemma FailedRenewalStops(e: Core)
    requires CoreInv(e) && e.task == Some(Renewing)
    ensures var after := ReactCore(e, OnRenewed(false));
      Stopped(e, after) && after.lease.None? && !after.timer && after.registered == e.registered && after.task.None?
  {
    StreamsCovered(e);
  }

  /** A throw while loading or opening stops it, and so does a refused egress before opening. */
  lemma FailureStops(e: Core, event: Event)
    requires CoreInv(e) && e.task.Some?
    requires || (event == OnFailed && (e.task.value.AskSnapshot? || e.task.value.Loading? || e.task.value.AskOpen? || e.task.value.Opening?))
             || (event == OnAuthorized(false) && e.task.value.AskOpen?)
    ensures var after := ReactCore(e, event);
      && Stopped(e, after) && after.task.None? && after.lease == e.lease
      && forall c :: c in after.streams ==> !after.streams[c]
  {
    StreamsCovered(e);
  }

  lemma StreamsCovered(e: Core)
    requires CoreInv(e)
    ensures forall c :: c in e.streams && e.streams[c] ==> e.stream == Some(c) || e.task == Some(Opening(c))
  {
    forall c | c in e.streams && e.streams[c]
      ensures e.stream == Some(c) || e.task == Some(Opening(c))
    {
      assert SourceFits(e, c);
    }
  }

  /** The last unsubscribe takes the entry out and stops it; an earlier one only removes its listener. */
  lemma UnsubscribeStops(w: Registry, key: Key, n: Listener, limit: nat)
    requires StreamsInv(w) && key in w.entries
    ensures var id, after := w.entries[key], Next(w, Unsubscribe(key, n), limit);
      && id in w.table && id in after.table
      && after.table[id].listeners == w.table[id].listeners - {n}
      && after.table.Keys == w.table.Keys && forall j :: j in w.table && j != id ==> after.table[j] == w.table[j]
    ensures var id, after := w.entries[key], Next(w, Unsubscribe(key, n), limit);
      if w.table[id].listeners <= {n}
      then
        && after.entries == w.entries - {key}
        && Stopped(w.table[id].core, after.table[id].core)
        && !after.table[id].core.registered && !after.table[id].core.timer
        && (w.table[id].account ==>
              if w.table[id].core.lease.Some? then after.releasing == w.releasing + multiset{key} && after.slots == w.slots
              else after.slots == w.slots - {key} && after.releasing == w.releasing)
      else after.entries == w.entries && after.table[id].core == w.table[id].core && after.slots == w.slots && after.releasing == w.releasing
  {
    assert IndexedAs(w, key);
    StreamsCovered(w.table[w.entries[key]].core);
  }

  /** Close stops every entry of the registry and gives back the slots of its accounts. */
  lemma CloseStops(w: Registry, limit: nat, id: EntryId)
    requires StreamsInv(w) && id in w.table && w.table[id].core.registered
    ensures var after := Next(w, Close, limit);
      && after.entries == map[] && id in after.table
      && Stopped(w.table[id].core, after.table[id].core)
      && !after.table[id].core.registered && !after.table[id].core.timer
      && (w.table[id].account ==> w.table[id].key !in after.slots)
  {
    assert w.entries[w.table[id].key] in w.entries.Values;
    StreamsCovered(w.table[id].core);
  }

  /* ---- an open stream delivers --------------------------------------------------- */

  /** Every listener, and nobody else, is told each delta of an open stream. */
  lemma DeltaReaches(e: Entry, c: nat, value: Value, n: Listener)
    requires CoreInv(e.core) && e.core.stream == Some(c)
    ensures Told(React(e, OnDelta(c, value)), n) == if n in e.listeners then Told(e, n) + [Delta(c, value)] else Told(e, n)
    ensures React(e, OnDelta(c, value)).core == e.core
  {
    assert SourceFits(e.core, c);
    ToldAfter(e, OnDelta(c, value), n);
  }

  /** A snapshot loaded under a live controller, for a registered and leased entry, is told to every listener; any other is dropped. */
  lemma SnapshotReaches(e: Entry, c: nat, snapshot: Value, n: Listener)
    requires CoreInv(e.core) && e.core.task == Some(Loading(c))
    ensures var after := React(e, OnLoaded(snapshot));
      if c !in e.core.aborted && e.core.registered && e.core.lease.Some?
      then
        && after.core.accepted && after.core.value == snapshot && after.core.task == Some(AskOpen(c))
        && Told(after, n) == if n in e.listeners then Told(e, n) + [Baseline(c, snapshot)] else Told(e, n)
      else !after.core.accepted && after.core.task.None? && Told(after, n) == Told(e, n)
  {
    ToldAfter(e, OnLoaded(snapshot), n);
  }

  /** The answers a reconcile of a leased entry gets when all goes well. */
  function Reconcile(snapshot: Value): seq<Event> {
    [OnBegin(false), OnAuthorized(true), OnLoaded(snapshot), OnAuthorized(true), OnOpened]
  }

  lemma NextControllerIsNew(e: Core)
    requires CoreInv(e)
    ensures e.epochs !in e.streams && e.epochs !in e.aborted
  {
    forall c | c in e.streams
      ensures c < e.epochs
    {
      assert SourceFits(e, c);
    }
  }

  lemma Reopens(e: Core, snapshot: Value)
    requires e.registered && e.lease.Some? && e.stream.None? && e.task.None?
    requires e.epochs !in e.streams && e.epochs !in e.aborted
    ensures var after := ReactAll(e, Reconcile(snapshot));
      && after == e.(accepted := true, value := snapshot, controller := Some(e.epochs), stream := Some(e.epochs),
                     epochs := e.epochs + 1, streams := e.streams[e.epochs := true])
  {
    var c := e.epochs;
    var e2 := e.(controller := Some(c), epochs := c + 1, accepted := false, task := Some(Loading(c)));
    var u := Reconcile(snapshot);
    ReachesLoading(e, u);
    assert u[2..] == [OnLoaded(snapshot), OnAuthorized(true), OnOpened];
    LoadingOpens(e2, c, snapshot);
  }

  lemma ReachesLoading(e: Core, u: seq<Event>)
    requires e.registered && e.lease.Some? && e.stream.None? && e.task.None?
    requires |u| >= 2 && u[0] == OnBegin(false) && u[1] == OnAuthorized(true)
    ensures ReactAll(e, u) ==
      ReactAll(e.(controller := Some(e.epochs), epochs := e.epochs + 1, accepted := false, task := Some(Loading(e.epochs))), u[2..])
  {
    var e1 := e.(controller := Some(e.epochs), epochs := e.epochs + 1, accepted := false, task := Some(AskSnapshot(e.epochs)));
    assert ReactAll(e, u) == ReactAll(e1, u[1..]);
    assert u[1..][1..] == u[2..];
  }

  lemma LoadingOpens(e: Core, c: nat, snapshot: Value)
    requires e.registered && e.lease.Some? && e.task == Some(Loading(c)) && c !in e.aborted
    ensures ReactAll(e, [OnLoaded(snapshot), OnAuthorized(true), OnOpened]) ==
      e.(accepted := true, value := snapshot, stream := Some(c), task := None, streams := e.streams[c := true])
  {
    var u := [OnLoaded(snapshot), OnAuthorized(true), OnOpened];
    var e3 := e.(accepted := true, value := snapshot, task := Some(AskOpen(c)));
    var e4 := e3.(task := Some(Opening(c)), streams := e.streams[c := true]);
    assert ReactAll(e, u) == ReactAll(e3, u[1..]);
    assert u[1..][1..] == u[2..] && ReactAll(e3, u[1..]) == ReactAll(e4, u[2..]);
    assert u[2..][1..] == [] && ReactAll(e4, u[2..]) == e4.(task := None, stream := Some(c));
  }

  /** A leased entry whose stream was stopped is given a new one, under a new controller, by its next reconcile. */
  lemma ReconcileReopens(e: Core, snapshot: Value)
    requires CoreInv(e) && e.registered && e.lease.Some? && e.stream.None? && e.task.None?
    ensures var after := ReactAll(e, Reconcile(snapshot));
      && after.accepted && after.value == snapshot && after.stream == Some(e.epochs) == after.controller
      && e.epochs !in e.streams && PassesDelta(after, e.epochs)
  {
    NextControllerIsNew(e);
    Reopens(e, snapshot);
  }

  /** A reconcile that finds the renewal due and gets it keeps the stream there is, and the timer is armed again. */
  lemma RenewalKeepsStream(e: Core)
    requires e.registered && e.lease.Some? && e.stream.Some? && e.task.None?
    ensures ReactAll(e, [OnBegin(true), OnAuthorized(true), OnRenewed(true)]) == e.(timer := true)
    ensures ReactAll(e, [OnBegin(false)]) == e
  {
    var u := [OnBegin(true), OnAuthorized(true), OnRenewed(true)];
    var e1, e2 := e.(task := Some(AskRenew)), e.(task := Some(Renewing));
    assert ReactAll(e, u) == ReactAll(e1, u[1..]);
    assert u[1..][1..] == u[2..] && ReactAll(e1, u[1..]) == ReactAll(e2, u[2..]);
    assert u[2..][1..] == [] && ReactAll(e2, u[2..]) == e.(timer := true);
    assert [OnBegin(false)][1..] == [] && ReactAll(e, [OnBegin(false)]) == ReactAll(e, []);
  }

  /** Without a stream the renewed entry goes on to its next snapshot. */
  lemma RenewalOpens(e: Core)
    requires e.registered && e.lease.Some? && e.stream.None? && e.task.None?
    ensures ReactAll(e, [OnBegin(true), OnAuthorized(true), OnRenewed(true)]) ==
      e.(timer := true, controller := Some(e.epochs), epochs := e.epochs + 1, accepted := false, task := Some(AskSnapshot(e.epochs)))
  {
    var u := [OnBegin(true), OnAuthorized(true), OnRenewed(true)];
    var e1, e2 := e.(task := Some(AskRenew)), e.(task := Some(Renewing));
    assert ReactAll(e, u) == ReactAll(e1, u[1..]);
    assert u[1..][1..] == u[2..] && ReactAll(e1, u[1..]) == ReactAll(e2, u[2..]);
    assert u[2..][1..] == [] && ReactAll(e2, u[2..]) == ReactCore(e2, OnRenewed(true));
  }

  /** A task asks the egress before every call; refused, it ends, and only past its snapshot does it stop the entry. A lease somebody else holds ends it too. */
  lemma RefusalsEnd(e: Core)
    requires e.task.Some?
    ensures e.task.value in {AskAcquire, AskRenew} || e.task.value.AskSnapshot? ==> ReactCore(e, OnAuthorized(false)) == e.(task := None)
    ensures e.task.value == Acquiring ==> ReactCore(e, OnAcquired(None)) == e.(task := None)
    ensures !e.registered || e.lease.None? ==> e.task.value.Loading? ==> forall v :: ReactCore(e, OnLoaded(v)) == e.(task := None)
  {
  }

  /** One task per entry, and none for an entry that was taken out. */
  lemma OneTask(e: Core, renewDue: bool)
    requires e.task.Some? || !e.registered
    ensures ReactCore(e, OnBegin(renewDue)) == e
  {
  }

  /* ---- what is told after a stop, over runs ------------------------------------------ */

  /** How much each listener had been told. */
  type Marks = Listener -> nat

  /** Since the marks: nothing of controller `c`, and every delta behind a baseline told since. */
  ghost predicate FreshSince(e: Entry, c: nat, marks: Marks) {
    && c in e.core.aborted
    && forall n :: SinceFits(Told(e, n), marks(n), c, n in e.listeners, e.core.accepted, e.core.controller)
  }

  predicate SinceFits(log: seq<Update>, mark: nat, c: nat, listens: bool, accepted: bool, controller: Option<nat>) {
    && mark <= |log|
    && ToldFits(log[mark..], listens, accepted, controller)
    && forall i :: mark <= i < |log| ==> log[i].epoch != c
  }

  lemma AbortedStays(e: Core, event: Event, c: nat)
    requires c in e.aborted
    ensures c in ReactCore(e, event).aborted
  {
  }

  lemma AnnouncedLive(e: Core, event: Event)
    requires Announced(e, event).Some?
    ensures Announced(e, event).value.epoch !in e.aborted
  {
  }

  /** One more update in a log, or none, keeps what holds since the mark. */
  lemma OneSince(log: seq<Update>, mark: nat, c: nat, listens: bool, e: Core, after: Core, u: Option<Update>)
    requires SinceFits(log, mark, c, listens, e.accepted, e.controller) && TellsRight(e, after, u)
    requires u.Some? ==> u.value.epoch != c
    ensures SinceFits(if u.Some? && listens then log + [u.value] else log, mark, c, listens, after.accepted, after.controller)
  {
    OneListener(log[mark..], listens, e, after, u);
    if u.Some? && listens { assert (log + [u.value])[mark..] == log[mark..] + [u.value]; }
  }

  lemma ReactKeepsFresh(e: Entry, event: Event, c: nat, marks: Marks)
    requires CoreInv(e.core) && FreshSince(e, c, marks)
    ensures FreshSince(React(e, event), c, marks)
  {
    var after, u := React(e, event), Announced(e.core, event);
    AbortedStays(e.core, event, c);
    AnnouncedRight(e.core, event);
    if u.Some? { AnnouncedLive(e.core, event); }
    forall n
      ensures SinceFits(Told(after, n), marks(n), c, n in after.listeners, after.core.accepted, after.core.controller)
    {
      ToldAfter(e, event, n);
      OneSince(Told(e, n), marks(n), c, n in e.listeners, e.core, after.core, u);
    }
  }

  /** A newcomer's baseline, under the controller the entry has. */
  lemma JoinSince(log: seq<Update>, mark: nat, c: nat, listened: bool, accepted: bool, controller: nat, value: Value)
    requires SinceFits(log, mark, c, listened, accepted, Some(controller)) && controller != c
    ensures SinceFits(log + [Baseline(controller, value)], mark, c, true, accepted, Some(controller))
  {
    var u := Baseline(controller, value);
    Appended(log[mark..], u);
    assert (log + [u])[mark..] == log[mark..] + [u];
  }

  lemma JoinedTold(e: Entry, n: Listener, m: Listener)
    requires CoreInv(e.core) && MayJoin(e)
    ensures Join(e, n).core == e.core && Join(e, n).listeners == e.listeners + {n}
    ensures Told(Join(e, n), m) ==
      if m == n && e.core.accepted then Told(e, n) + [Baseline(e.core.controller.value, e.core.value)]
      else Told(e, m)
  {
  }

  lemma JoinKeepsFresh(e: Entry, n: Listener, c: nat, marks: Marks)
    requires CoreInv(e.core) && FreshSince(e, c, marks) && MayJoin(e)
    ensures FreshSince(Join(e, n), c, marks)
  {
    var after := Join(e, n);
    forall m
      ensures SinceFits(Told(after, m), marks(m), c, m in after.listeners, after.core.accepted, after.core.controller)
    {
      JoinedTold(e, n, m);
      assert SinceFits(Told(e, m), marks(m), c, m in e.listeners, e.core.accepted, e.core.controller);
      if m == n && e.core.accepted {
        JoinSince(Told(e, m), marks(m), c, m in e.listeners, true, e.core.controller.value, e.core.value);
      }
    }
  }

  lemma FewerKeepsFresh(e: Entry, after: Entry, c: nat, marks: Marks)
    requires FreshSince(e, c, marks) && after.logs == e.logs && after.listeners <= e.listeners
    requires after.core.accepted ==> after.core == e.core
    requires c in after.core.aborted
    ensures FreshSince(after, c, marks)
  {
    forall n
      ensures SinceFits(Told(after, n), marks(n), c, n in after.listeners, after.core.accepted, after.core.controller)
    {
      assert SinceFits(Told(e, n), marks(n), c, n in e.listeners, e.core.accepted, e.core.controller);
    }
  }

  lemma ChangesKeepFresh(e: Entry, after: Entry, step: Step, c: nat, marks: Marks)
    requires CoreInv(e.core) && FreshSince(e, c, marks) && Changes(e, after, step) && (step.Subscribe? ==> MayJoin(e))
    ensures FreshSince(after, c, marks)
  {
    match step
    case Subscribe(_, _, n) => JoinKeepsFresh(e, n, c, marks);
    case Unsubscribe(_, n) => FewerKeepsFresh(e, after, c, marks);
    case ReleaseReturns(_) =>
    case Resume(_, event) => ReactKeepsFresh(e, event, c, marks);
    case Close => FewerKeepsFresh(e, after, c, marks);
  }

  /** What was told when the entry had been stopped. */
  function MarksOf(e: Entry): Marks {
    n => |Told(e, n)|
  }

  lemma StoppedIsFresh(e: Entry, c: nat)
    requires !e.core.accepted && c in e.core.aborted
    ensures FreshSince(e, c, MarksOf(e))
  {
    forall n
      ensures SinceFits(Told(e, n), MarksOf(e)(n), c, n in e.listeners, e.core.accepted, e.core.controller)
    {
      assert Told(e, n)[|Told(e, n)|..] == [];
    }
  }

  lemma GoodPrefix(steps: seq<Step>, limit: nat, k: nat)
    requires GoodRun(steps, limit) && k <= |steps|
    ensures GoodRun(steps[..k], limit)
  {
    forall i | 0 <= i < k
      ensures GoodStep(Run(steps[..k][..i], limit), steps[..k][i])
    {
      assert steps[..k][..i] == steps[..i];
    }
  }

  lemma {:induction false} FreshRun(steps: seq<Step>, limit: nat, k: nat, id: EntryId, c: nat, marks: Marks)
    requires GoodRun(steps, limit) && k <= |steps|
    requires id in Run(steps[..k], limit).table && FreshSince(Run(steps[..k], limit).table[id], c, marks)
    ensures id in Run(steps, limit).table && FreshSince(Run(steps, limit).table[id], c, marks)
  {
    if k == |steps| {
      assert steps[..k] == steps;
    } else {
      var init, last := steps[..|steps| - 1], steps[|steps| - 1];
      assert init[..k] == steps[..k];
      GoodPrefix(steps, limit, |init|);
      FreshRun(init, limit, k, id, c, marks);
      RunKeepsStreams(init, limit);
      assert GoodStep(Run(init, limit), last);
      FreshStep(Run(init, limit), last, limit, id, c, marks);
    }
  }

  lemma FreshStep(w: Registry, step: Step, limit: nat, id: EntryId, c: nat, marks: Marks)
    requires StreamsInv(w) && GoodStep(w, step) && id in w.table && FreshSince(w.table[id], c, marks)
    ensures id in Next(w, step, limit).table && FreshSince(Next(w, step, limit).table[id], c, marks)
  {
    EntriesStay(w, step, limit, id);
    NextChanges(w, step, limit, id);
    var after := Next(w, step, limit).table[id];
    if after != w.table[id] {
      if step.Subscribe? { JoinedHasKey(w, step, limit, id); }
      ChangesKeepFresh(w.table[id], after, step, c, marks);
    }
  }

  lemma EntriesStay(w: Registry, step: Step, limit: nat, id: EntryId)
    requires id in w.table
    ensures id in Next(w, step, limit).table
  {
  }

  /** Update `i` of a log is a delta behind a baseline of its own epoch, told since the mark. */
  ghost predicate BehindNewBaseline(log: seq<Update>, mark: nat, i: nat) {
    exists j: nat :: mark <= j && BaselineOf(log, j, i) && log[j].epoch == log[i].epoch
  }

  lemma SinceMeans(log: seq<Update>, mark: nat, c: nat, listens: bool, accepted: bool, controller: Option<nat>, i: nat)
    requires SinceFits(log, mark, c, listens, accepted, controller) && mark <= i < |log|
    ensures log[i].epoch != c && (log[i].Delta? ==> BehindNewBaseline(log, mark, i))
  {
    var since := log[mark..];
    if log[i].Delta? {
      OrderlyMeans(since, i - mark);
      var j: nat :| BaselineOf(since, j, i - mark) && since[j].epoch == since[i - mark].epoch;
      forall m | mark <= m < |log|
        ensures since[m - mark] == log[m]
      {
      }
      assert BaselineOf(log, mark + j, i);
    }
  }

  /** Once the controller `c` of an entry is aborted and its baseline dropped, whatever the step: no listener is told anything of `c` again, and every later delta follows a baseline told later. */
  lemma NothingAfterStop(steps: seq<Step>, limit: nat, k: nat, id: EntryId, c: nat, n: Listener, i: nat)
    requires GoodRun(steps, limit) && k <= |steps| && id in Run(steps[..k], limit).table
    requires var e := Run(steps[..k], limit).table[id]; !e.core.accepted && c in e.core.aborted
    requires id in Run(steps, limit).table
    requires |Told(Run(steps[..k], limit).table[id], n)| <= i < |Told(Run(steps, limit).table[id], n)|
    ensures var log, mark := Told(Run(steps, limit).table[id], n), |Told(Run(steps[..k], limit).table[id], n)|;
      && log[i].epoch != c
      && (log[i].Delta? ==> BehindNewBaseline(log, mark, i))
  {
    var stopped, e := Run(steps[..k], limit).table[id], Run(steps, limit).table[id];
    var log, mark := Told(e, n), |Told(stopped, n)|;
    StoppedIsFresh(stopped, c);
    FreshRun(steps, limit, k, id, c, MarksOf(stopped));
    assert SinceFits(log, MarksOf(stopped)(n), c, n in e.listeners, e.core.accepted, e.core.controller);
    SinceMeans(log, mark, c, n in e.listeners, e.core.accepted, e.core.controller, i);
  }

  /** The steps that stop an entry with controller `c`: a gap of its stream, the end of its lease, a renewal that failed. */
  predicate StopsEntry(e: Core, event: Event, c: nat) {
    && e.controller == Some(c)
    && match event
       case OnGapOf(d) => d == c && c in e.streams
       case OnExpire => e.timer
       case OnRenewed(ok) => !ok && e.task == Some(Renewing)
       case _ => false
  }

  /** After a gap, an expiry or a failed renewal of controller `c`, no listener is ever told anything of `c`, and the next delta it sees follows a baseline of another epoch told after it. */
  lemma NothingAfterGap(steps: seq<Step>, limit: nat, k: nat, id: EntryId, event: Event, c: nat, n: Listener, i: nat)
    requires GoodRun(steps, limit) && k < |steps| && steps[k] == Resume(id, event)
    requires id in Run(steps[..k], limit).table && StopsEntry(Run(steps[..k], limit).table[id].core, event, c)
    requires id in Run(steps, limit).table
    requires |Told(Run(steps[..k], limit).table[id], n)| <= i < |Told(Run(steps, limit).table[id], n)|
    ensures var log, mark := Told(Run(steps, limit).table[id], n), |Told(Run(steps[..k], limit).table[id], n)|;
      && log[i].epoch != c
      && (log[i].Delta? ==> BehindNewBaseline(log, mark, i))
  {
    var w := Run(steps[..k], limit);
    RunKeepsStreams(steps[..k], limit);
    assert steps[..k + 1][..k] == steps[..k];
    var e := w.table[id];
    match event {
      case OnGapOf(_) => GapStops(e.core, c);
      case OnExpire => ExpiryStops(e.core);
      case OnRenewed(_) => FailedRenewalStops(e.core);
      case _ =>
    }
    assert Run(steps[..k + 1], limit).table[id] == React(e, event);
    ToldAfter(e, event, n);
    NothingAfterStop(steps, limit, k + 1, id, c, n, i);
  }

  /* ---- unique users ------------------------------------------------------------------------ */

  /** However subscriptions, releases and close interleave, no more accounts hold a slot than there may. */
  lemma {:induction false} SlotsWithinLimit(steps: seq<Step>, limit: nat)
    ensures |Run(steps, limit).slots| <= limit
  {
    if steps != [] {
      var init, last := steps[..|steps| - 1], steps[|steps| - 1];
      SlotsWithinLimit(init, limit);
      var before, after := Run(init, limit), Run(steps, limit);
      if !(after.slots <= before.slots) {
        assert last.Subscribe? && after.slots == before.slots + {last.key};
      } else {
        Fewer(after.slots, before.slots);
      }
    }
  }

  lemma Fewer(a: set<Key>, b: set<Key>)
    requires a <= b
    ensures |a| <= |b|
  {
    if a != b {
      var x :| x in b && x !in a;
      Fewer(a, b - {x});
    }
  }

  /** A new account is taken in exactly while there is room; a known key and a market always are. */
  lemma SubscribeExactly(w: Registry, key: Key, account: bool, n: Listener, limit: nat)
    requires StreamsInv(w)
    ensures var after := Next(w, Subscribe(key, account, n), limit);
      if key in w.entries then
        && after.entries == w.entries && after.slots == w.slots
        && after.table[w.entries[key]].listeners == w.table[w.entries[key]].listeners + {n}
        && after.table[w.entries[key]].core == w.table[w.entries[key]].core
      else if account && key !in w.slots && |w.slots| >= limit then after == w
      else
        && key in after.entries && after.entries[key] !in w.table
        && after.table[after.entries[key]] == Entry(key, account, {n}, NEW_CORE, map[])
        && after.slots == w.slots + (if account then {key} else {})
  {
    if key in w.entries { assert IndexedAs(w, key); }
  }
}
