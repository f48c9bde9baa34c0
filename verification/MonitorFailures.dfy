/** Runs from the empty registry in which a promise of the registry fails. */
module MonitorFailures {
  import opened Base
  import opened Monitor
  import opened MonitorTheorems

  lemma RunMore(steps: seq<Step>, step: Step, limit: nat)
    ensures Run(steps + [step], limit) == Next(Run(steps, limit), step, limit)
  {
    assert (steps + [step])[..|steps|] == steps;
  }

  /** The registry holds one entry, the first one made. */
  ghost predicate OnlyEntry(w: Registry, key: Key, account: bool, listeners: set<Listener>, core: Core) {
    && w.entries == map[key := 0] && w.next == 1
    && 0 in w.table && w.table.Keys == {0}
    && var e := w.table[0];
    && e.key == key && e.account == account && e.listeners == listeners && e.core == core
    && e.logs.Keys <= listeners
    && w.slots == if account then {key} else {}
  }

  lemma Subscribed(key: Key, account: bool, n: Listener, limit: nat)
    requires limit > 0
    ensures var w := Run([Subscribe(key, account, n)], limit);
      OnlyEntry(w, key, account, {n}, NEW_CORE)
  {
    RunMore([], Subscribe(key, account, n), limit);
    assert [] + [Subscribe(key, account, n)] == [Subscribe(key, account, n)];
  }

  lemma Reacts(steps: seq<Step>, event: Event, limit: nat, key: Key, account: bool, n: Listener, core: Core)
    requires OnlyEntry(Run(steps, limit), key, account, {n}, core)
    ensures var w := Run(steps + [Resume(0, event)], limit);
      OnlyEntry(w, key, account, {n}, ReactCore(core, event))
  {
    RunMore(steps, Resume(0, event), limit);
  }

  /** The steps that feed events to entry 0. */
  function Resumes(events: seq<Event>): seq<Step>
    decreases |events|
  {
    if events == [] then [] else [Resume(0, events[0])] + Resumes(events[1..])
  }

  lemma {:induction false} ReactsAll(steps: seq<Step>, events: seq<Event>, limit: nat, key: Key, account: bool, n: Listener, core: Core)
    requires OnlyEntry(Run(steps, limit), key, account, {n}, core)
    ensures OnlyEntry(Run(steps + Resumes(events), limit), key, account, {n}, ReactAll(core, events))
    decreases |events|
  {
    if events == [] {
      assert steps + Resumes(events) == steps;
    } else {
      var first, rest := [Resume(0, events[0])], Resumes(events[1..]);
      var next := ReactCore(core, events[0]);
      Reacts(steps, events[0], limit, key, account, n, core);
      ReactsAll(steps + first, events[1..], limit, key, account, n, next);
      assert ReactAll(core, events) == ReactAll(next, events[1..]);
      assert steps + Resumes(events) == (steps + first) + rest;
    }
  }

  /** Whatever the limit, an account can be subscribed without a slot: it subscribes, gets its lease, leaves, and is subscribed again before the release returns. */
  lemma SlotCanBeLost(key: Key, n: Listener, limit: nat)
    requires limit > 0
    ensures exists steps: seq<Step> :: !SlotsHeld(Run(steps, limit))
  {
    Subscribed(key, true, n, limit);
    var s1: seq<Step> := [Subscribe(key, true, n)];
    var events := [OnBegin(false), OnAuthorized(true), OnAcquired(Some(0))];
    ReactsAll(s1, events, limit, key, true, n, NEW_CORE);
    Leased(events);
    LeavesWithLease(s1 + Resumes(events), key, n, limit, ReactAll(NEW_CORE, events));
  }

  lemma Leased(events: seq<Event>)
    requires events == [OnBegin(false), OnAuthorized(true), OnAcquired(Some(0))]
    ensures ReactAll(NEW_CORE, events).lease.Some?
  {
    var e1 := NEW_CORE.(task := Some(AskAcquire));
    var e2 := NEW_CORE.(task := Some(Acquiring));
    assert ReactAll(NEW_CORE, events) == ReactAll(e1, events[1..]);
    assert events[1..][1..] == events[2..] && ReactAll(e1, events[1..]) == ReactAll(e2, events[2..]);
    assert events[2..][1..] == [] && ReactAll(e2, events[2..]) == Acquired(e2, Some(0));
  }

  lemma LeavesWithLease(steps: seq<Step>, key: Key, n: Listener, limit: nat, core: Core)
    requires OnlyEntry(Run(steps, limit), key, true, {n}, core) && core.lease.Some?
    ensures exists more: seq<Step> :: !SlotsHeld(Run(more, limit))
  {
    var left, again, released := steps + [Unsubscribe(key, n)], Subscribe(key, true, n), ReleaseReturns(key);
    RunMore(steps, Unsubscribe(key, n), limit);
    assert Leave(Run(steps, limit).table[0], n).listeners == {};
    var w := Run(left, limit);
    assert key !in w.entries && key in w.slots && key in w.releasing;
    ResubscribedKeyLosesSlot(w, key, n, limit);
    RunMore(left, again, limit);
    RunMore(left + [again], released, limit);
    assert !SlotsHeld(Run(left + [again] + [released], limit));
  }

  /** A listener sees a delta and has seen nothing before. */
  ghost predicate SeesDeltaFirst(w: Registry, late: Listener, value: Value) {
    0 in w.table && late in w.table[0].listeners && Told(w.table[0], late) == [Delta(0, value)]
  }

  /** Whatever the limit, a listener can see a delta with no baseline before it: it joins when an `undefined` snapshot has been accepted. */
  lemma DeltaCanComeFirst(key: Key, n: Listener, late: Listener, value: Value, limit: nat)
    requires limit > 0 && late != n
    ensures exists steps: seq<Step> :: SeesDeltaFirst(Run(steps, limit), late, value)
  {
    Subscribed(key, false, n, limit);
    ReactsAll([Subscribe(key, false, n)], FirstReconcile(0, None), limit, key, false, n, NEW_CORE);
    FirstReconcileOpens(0, None);
    JoinsUndefined([Subscribe(key, false, n)] + Resumes(FirstReconcile(0, None)), key, n, late, value, limit,
                   ReactAll(NEW_CORE, FirstReconcile(0, None)));
  }

  lemma JoinsUndefined(steps: seq<Step>, key: Key, n: Listener, late: Listener, value: Value, limit: nat, core: Core)
    requires OnlyEntry(Run(steps, limit), key, false, {n}, core) && late != n
    requires core.accepted && core.value.None? && PassesDelta(core, 0)
    ensures exists more: seq<Step> :: SeesDeltaFirst(Run(more, limit), late, value)
  {
    var joined, delta := steps + [Subscribe(key, false, late)], Resume(0, OnDelta(0, value));
    RunMore(steps, Subscribe(key, false, late), limit);
    RunMore(joined, delta, limit);
    var e := Run(steps, limit).table[0];
    assert Run(joined, limit).table[0] == Join(e, late) && Told(Join(e, late), late) == [];
    assert [] + [Delta(0, value)] == [Delta(0, value)];
    assert SeesDeltaFirst(Run(joined + [delta], limit), late, value);
  }
}
