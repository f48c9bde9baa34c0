/**
 The shared monitor registry. A reconcile task of an entry can be overtaken, at every
 await, by subscriptions, gaps, lease expiry and close, so each stretch between two
 awaits is one step.
 */
module Monitor {
  import opened Base

  type Key = nat
  type Listener = nat
  type EntryId = nat

  /** A snapshot or a delta; None is the value `undefined`. */
  type Value = Option<nat>

  /** What a listener is told; `epoch` is the abort controller it was told under. */
  datatype Update = Baseline(epoch: nat, value: Value) | Delta(epoch: nat, value: Value)

  /** The await at which a reconcile task is suspended. */
  datatype Pc =
    | AskAcquire | Acquiring | AskRenew | Renewing
    | AskSnapshot(epoch: nat) | Loading(epoch: nat) | AskOpen(epoch: nat) | Opening(epoch: nat)

  /**
   The state a reconcile task works on. The controllers an entry ever made are numbered
   below `epochs`; `streams` holds the stream opened under each and whether the source
   still has it. */
  datatype Core = Core(
    registered: bool,
    lease: Option<nat>,
    accepted: bool,
    value: Value,
    stream: Option<nat>,
    controller: Option<nat>,
    task: Option<Pc>,
    timer: bool,
    epochs: nat,
    aborted: set<nat>,
    streams: map<nat, bool>)

  /** A MonitorEntry, with what each listener was told by it. */
  datatype Entry = Entry(
    key: Key, account: bool, listeners: set<Listener>, core: Core, logs: map<Listener, seq<Update>>)

  const NEW_CORE := Core(true, None, false, None, None, None, None, false, 0, {}, map[])

  function NewEntry(key: Key, account: bool): Entry {
    Entry(key, account, {}, NEW_CORE, map[])
  }

  function Told(e: Entry, n: Listener): seq<Update> {
    if n in e.logs then e.logs[n] else []
  }

  /* ---- stretches of code ------------------------------------------------------ */

  /** #stopStream. */
  function Stop(e: Core): Core {
    e.(accepted := false,
       value := None,
       aborted := if e.controller.Some? then e.aborted + {e.controller.value} else e.aborted,
       controller := None,
       streams := if e.stream.Some? then e.streams[e.stream.value := false] else e.streams,
       stream := None)
  }

  /** The entry is taken out of the registry. */
  function Retire(e: Core): Core {
    Stop(e).(timer := false, registered := false)
  }

  function Done(e: Core): Core {
    e.(task := None)
  }

  /** From the lease onward: keep the stream there is, or take a new controller. */
  function Continue(e: Core): Core {
    if e.stream.Some? then Done(e)
    else e.(controller := Some(e.epochs), epochs := e.epochs + 1, accepted := false, task := Some(AskSnapshot(e.epochs)))
  }

  /** #reconcileEntry up to its first await. */
  function Begin(e: Core, renewDue: bool): Core {
    if e.task.Some? || !e.registered then e
    else if e.lease.None? then e.(task := Some(AskAcquire))
    else if renewDue then e.(task := Some(AskRenew))
    else Continue(e)
  }

  /** authorizeEgress answered. */
  function Authorized(e: Core, ok: bool): Core {
    match e.task
    case Some(AskAcquire) => if ok then e.(task := Some(Acquiring)) else Done(e)
    case Some(AskRenew) => if ok then e.(task := Some(Renewing)) else Done(e)
    case Some(AskSnapshot(c)) => if ok then e.(task := Some(Loading(c))) else Done(e)
    case Some(AskOpen(c)) => if ok then e.(task := Some(Opening(c)), streams := e.streams[c := true]) else Done(Stop(e))
    case _ => e
  }

  function Acquired(e: Core, generation: Option<nat>): Core {
    if e.task != Some(Acquiring) then e
    else if generation.None? then Done(e)
    else Continue(e.(lease := generation, timer := true))
  }

  function Renewed(e: Core, ok: bool): Core {
    if e.task != Some(Renewing) then e
    else if !ok then Done(Stop(e.(lease := None, timer := false)))
    else Continue(e.(timer := true))
  }

  predicate AcceptsSnapshot(e: Core) {
    e.task.Some? && e.task.value.Loading? && e.task.value.epoch !in e.aborted && e.registered && e.lease.Some?
  }

  function Loaded(e: Core, snapshot: Value): Core {
    if e.task.None? || !e.task.value.Loading? then e
    else if !AcceptsSnapshot(e) then Done(e)
    else e.(accepted := true, value := snapshot, task := Some(AskOpen(e.task.value.epoch)))
  }

  function Opened(e: Core): Core {
    match e.task
    case Some(Opening(c)) =>
      if c in e.aborted then Done(e.(streams := e.streams[c := false])) else Done(e.(stream := Some(c)))
    case _ => e
  }

  /** The awaited call threw. */
  function Failed(e: Core): Core {
    match e.task
    case Some(Opening(c)) => Done(Stop(e.(streams := e.streams[c := false])))
    case Some(AskSnapshot(_)) => Done(Stop(e))
    case Some(Loading(_)) => Done(Stop(e))
    case Some(AskOpen(_)) => Done(Stop(e))
    case _ => Done(e)
  }

  /** onDelta of the stream opened under controller `c` passes its value on. */
  predicate PassesDelta(e: Core, c: nat) {
    c in e.streams && e.accepted && c !in e.aborted
  }

  function OnGap(e: Core, c: nat): Core {
    if c !in e.streams || c in e.aborted then e else Stop(e)
  }

  function Expire(e: Core): Core {
    if !e.timer then e else Stop(e.(timer := false, lease := None))
  }

  datatype Event =
    | OnBegin(renewDue: bool)
    | OnAuthorized(ok: bool)
    | OnAcquired(generation: Option<nat>)
    | OnRenewed(ok: bool)
    | OnLoaded(snapshot: Value)
    | OnOpened
    | OnFailed
    | OnDelta(epoch: nat, value: Value)
    | OnGapOf(epoch: nat)
    | OnExpire

  function ReactCore(e: Core, event: Event): Core {
    match event
    case OnBegin(renewDue) => Begin(e, renewDue)
    case OnAuthorized(ok) => Authorized(e, ok)
    case OnAcquired(generation) => Acquired(e, generation)
    case OnRenewed(ok) => Renewed(e, ok)
    case OnLoaded(snapshot) => Loaded(e, snapshot)
    case OnOpened => Opened(e)
    case OnFailed => Failed(e)
    case OnDelta(_, _) => e
    case OnGapOf(c) => OnGap(e, c)
    case OnExpire => Expire(e)
  }

  /** What the listeners are told. */
  function Announced(e: Core, event: Event): Option<Update> {
    match event
    case OnLoaded(snapshot) => if AcceptsSnapshot(e) then Some(Baseline(e.task.value.epoch, snapshot)) else None
    case OnDelta(c, value) => if PassesDelta(e, c) then Some(Delta(c, value)) else None
    case _ => None
  }

  /** #publish. */
  function Publish(e: Entry, u: Update): map<Listener, seq<Update>> {
    map n | n in e.logs.Keys + e.listeners :: if n in e.listeners then Told(e, n) + [u] else Told(e, n)
  }

  function React(e: Entry, event: Event): Entry {
    var u := Announced(e.core, event);
    e.(core := ReactCore(e.core, event), logs := if u.Some? then Publish(e, u.value) else e.logs)
  }

  /** The listener part of subscribe. */
  function Join(e: Entry, n: Listener): Entry {
    e.(listeners := e.listeners + {n},
       logs := if e.core.accepted && e.core.value.Some? && e.core.controller.Some?
               then e.logs[n := Told(e, n) + [Baseline(e.core.controller.value, e.core.value)]] else e.logs)
  }

  function Leave(e: Entry, n: Listener): Entry {
    e.(listeners := e.listeners - {n})
  }

  /* ---- the registry -------------------------------------------------------------- */

  /** `slots` are the reserved unique users, `releasing` the unsubscribes still awaiting their lease release. */
  datatype Registry = Registry(
    table: map<EntryId, Entry>, entries: map<Key, EntryId>, next: EntryId, slots: set<Key>, releasing: multiset<Key>)

  const EMPTY := Registry(map[], map[], 0, {}, multiset{})

  datatype Step =
    | Subscribe(key: Key, account: bool, listener: Listener)
    | Unsubscribe(key: Key, listener: Listener)
    | ReleaseReturns(key: Key)
    | Resume(entry: EntryId, event: Event)
    | Close

  /** reserveUniqueUser, with room for `limit` users. */
  predicate MayReserve(slots: set<Key>, key: Key, limit: nat) {
    key in slots || |slots| < limit
  }

  function SubscribeTo(w: Registry, key: Key, account: bool, n: Listener, limit: nat): Registry {
    if key in w.entries && w.entries[key] in w.table then
      w.(table := w.table[w.entries[key] := Join(w.table[w.entries[key]], n)])
    else if account && !MayReserve(w.slots, key, limit) then w
    else w.(
      table := w.table[w.next := Join(NewEntry(key, account), n)],
      entries := w.entries[key := w.next],
      next := w.next + 1,
      slots := if account then w.slots + {key} else w.slots)
  }

  function UnsubscribeFrom(w: Registry, key: Key, n: Listener): Registry {
    if key !in w.entries || w.entries[key] !in w.table then w
    else
      var id := w.entries[key];
      var left := Leave(w.table[id], n);
      if left.listeners != {} then w.(table := w.table[id := left])
      else w.(
        table := w.table[id := left.(core := Retire(left.core))],
        entries := w.entries - {key},
        releasing := if left.account && left.core.lease.Some? then w.releasing + multiset{key} else w.releasing,
        slots := if left.account && left.core.lease.None? then w.slots - {key} else w.slots)
  }

  function CloseAll(w: Registry): Registry {
    w.(
      table := map id | id in w.table :: if id in w.entries.Values then w.table[id].(core := Retire(w.table[id].core)) else w.table[id],
      entries := map[],
      slots := w.slots - set key | key in w.entries && w.entries[key] in w.table && w.table[w.entries[key]].account)
  }

  function Next(w: Registry, step: Step, limit: nat): Registry {
    match step
    case Subscribe(key, account, n) => SubscribeTo(w, key, account, n, limit)
    case Unsubscribe(key, n) => UnsubscribeFrom(w, key, n)
    case ReleaseReturns(key) =>
      if key in w.releasing then w.(releasing := w.releasing - multiset{key}, slots := w.slots - {key}) else w
    case Resume(id, event) => if id in w.table then w.(table := w.table[id := React(w.table[id], event)]) else w
    case Close => CloseAll(w)
  }
}
