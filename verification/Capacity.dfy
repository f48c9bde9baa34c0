/** Reservations with release closures, and the sliding windows that pace calls to the exchange. */
module Capacity {
  import opened Base

  datatype Resource =
    | RestWeightPerMinute | WebsocketConnections | WebsocketConnectionsPerMinute | WebsocketSubscriptions
    | UniqueUsers | WebsocketMessagesPerMinute | WebsocketInflightPosts

  /** One call of tryReserve that succeeded, with the flag its closure carries. */
  datatype Reservation = Reservation(resource: Resource, amount: nat, released: bool)

  /** What the unreleased reservations of a resource add up to. */
  function Held(reservations: seq<Reservation>, resource: Resource): nat {
    if reservations == [] then 0
    else
      var last := reservations[|reservations| - 1];
      Held(reservations[..|reservations| - 1], resource)
      + if last.resource == resource && !last.released then last.amount else 0
  }

  lemma {:induction false} HeldAfterRelease(reservations: seq<Reservation>, k: nat, resource: Resource)
    requires k < |reservations| && !reservations[k].released
    ensures Held(reservations[k := reservations[k].(released := true)], resource)
      == Held(reservations, resource) - if reservations[k].resource == resource then reservations[k].amount else 0
  {
    var after := reservations[k := reservations[k].(released := true)];
    var n := |reservations| - 1;
    if k == n {
      assert after[..n] == reservations[..n];
    } else {
      HeldAfterRelease(reservations[..n], k, resource);
      assert after[..n] == reservations[..n][k := reservations[k].(released := true)];
    }
  }

  class CapacityGovernor {
    const limits: map<Resource, nat>
    var observed: map<Resource, nat>
    var reserved: map<Resource, int>
    var reservations: seq<Reservation>

    function Observed(resource: Resource): nat
      reads this
    {
      if resource in observed then observed[resource] else 0
    }

    function Reserved(resource: Resource): int
      reads this
    {
      if resource in reserved then reserved[resource] else 0
    }

    function Limit(resource: Resource): nat {
      if resource in limits then limits[resource] else 0
    }

    /** Reserved capacity is the sum of the unreleased reservations. */
    ghost predicate Valid()
      reads this
    {
      forall resource :: Reserved(resource) == Held(reservations, resource)
    }

    constructor (limits: map<Resource, nat>)
      ensures Valid() && this.limits == limits && reservations == [] && observed == map[]
    {
      this.limits := limits;
      observed, reserved, reservations := map[], map[], [];
    }

    method Observe(resource: Resource, usage: nat)
      requires Valid()
      modifies this`observed
      ensures Valid() && observed == old(observed)[resource := usage]
    {
      observed := observed[resource := usage];
    }

    predicate CanReserve(resource: Resource, amount: nat)
      reads this
    {
      Observed(resource) + Reserved(resource) + amount <= Limit(resource)
    }

    method TryReserve(resource: Resource, amount: nat) returns (token: Option<nat>)
      requires Valid()
      modifies this`reserved, this`reservations
      ensures Valid()
      ensures token.Some? <==> old(Observed(resource) + Held(reservations, resource)) + amount <= Limit(resource)
      ensures token.Some? ==>
        token.value == |old(reservations)| && reservations == old(reservations) + [Reservation(resource, amount, false)]
      ensures token.None? ==> reservations == old(reservations) && reserved == old(reserved)
    {
      if !CanReserve(resource, amount) {
        return None;
      }
      ghost var before := reservations;
      reserved := reserved[resource := Reserved(resource) + amount];
      reservations := reservations + [Reservation(resource, amount, false)];
      assert reservations[..|reservations| - 1] == before;
      return Some(|reservations| - 1);
    }

    /** The closure tryReserve returned; a second call does nothing. */
    method Release(token: nat)
      requires Valid() && token < |reservations|
      modifies this`reserved, this`reservations
      ensures Valid()
      ensures reservations == old(reservations)[token := old(reservations)[token].(released := true)]
    {
      if reservations[token].released {
        assert reservations[token := reservations[token].(released := true)] == reservations;
        return;
      }
      ghost var before, after := reservations, reservations[token := reservations[token].(released := true)];
      forall resource
        ensures Held(after, resource) == Held(before, resource) - if before[token].resource == resource then before[token].amount else 0
      {
        HeldAfterRelease(before, token, resource);
      }
      var resource, next := reservations[token].resource, Reserved(reservations[token].resource) - reservations[token].amount;
      assert next == Held(after, resource);
      reservations := reservations[token := reservations[token].(released := true)];
      if next <= 0 {
        reserved := reserved - {resource};
      } else {
        reserved := reserved[resource := next];
      }
    }
  }
}

module Windows {
  import opened Base
  import opened Capacity

  const WINDOW := 60_000

  /** `while (queue[0] <= cutoff) queue.shift()`. */
  function Pruned(queue: seq<int>, cutoff: int): seq<int> {
    if queue != [] && queue[0] <= cutoff then Pruned(queue[1..], cutoff) else queue
  }

  predicate Ordered(log: seq<int>) {
    forall i, j :: 0 <= i < j < |log| ==> log[i] <= log[j]
  }

  /** Any entry comes a whole window after the one `limit` places before it. */
  predicate Paced(log: seq<int>, limit: nat) {
    forall k :: limit <= k < |log| ==> log[k] >= log[k - limit] + WINDOW
  }

  /** The queue holds the latest entries, and what left it is at least a window old. */
  predicate Tracks(queue: seq<int>, log: seq<int>, now: int) {
    && |queue| <= |log| && queue == log[|log| - |queue|..]
    && Ordered(log) && (forall i :: 0 <= i < |log| ==> log[i] <= now)
    && (forall i :: 0 <= i < |log| - |queue| ==> log[i] + WINDOW <= now)
  }

  lemma {:induction false} PrunedTracks(queue: seq<int>, log: seq<int>, now: int)
    requires Tracks(queue, log, now)
    ensures Tracks(Pruned(queue, now - WINDOW), log, now)
    ensures |Pruned(queue, now - WINDOW)| <= |queue|
    decreases |queue|
  {
    if queue != [] && queue[0] <= now - WINDOW {
      var d := |log| - |queue|;
      assert log[d] == queue[0];
      assert queue[1..] == log[d + 1..];
      PrunedTracks(queue[1..], log, now);
    }
  }

  /** One more entry while fewer than `limit` are young enough to count. */
  lemma PushTracks(queue: seq<int>, log: seq<int>, limit: nat, before: int, now: int)
    requires Tracks(queue, log, before) && before <= now && Paced(log, limit) && |queue| < limit
    ensures Tracks(queue + [now], log + [now], now) && Paced(log + [now], limit)
  {
    var after := log + [now];
    assert after[|after| - |queue + [now]|..] == queue + [now];
    forall k | limit <= k < |after|
      ensures after[k] >= after[k - limit] + WINDOW
    {
      if k < |log| { assert log[k] >= log[k - limit] + WINDOW; }
    }
  }

  lemma TracksLater(queue: seq<int>, log: seq<int>, before: int, now: int)
    requires Tracks(queue, log, before) && before <= now
    ensures Tracks(queue, log, now)
  {
  }

  /** Entries from `lo` up to but not including `hi`. */
  function CountIn(log: seq<int>, lo: int, hi: int): nat {
    if log == [] then 0
    else CountIn(log[..|log| - 1], lo, hi) + if lo <= log[|log| - 1] < hi then 1 else 0
  }

  /** In an ordered log the entries of a window are consecutive. */
  lemma {:induction false} CountIsSpan(log: seq<int>, lo: int, hi: int)
    requires Ordered(log) && log != [] && lo <= log[|log| - 1] < hi
    ensures 1 <= CountIn(log, lo, hi) <= |log|
    ensures log[|log| - CountIn(log, lo, hi)] >= lo
  {
    var n := |log| - 1;
    var init := log[..n];
    if init == [] || init[n - 1] < lo {
      BelowCountsNothing(init, lo, hi);
    } else {
      CountIsSpan(init, lo, hi);
      assert init[n - CountIn(init, lo, hi)] == log[n + 1 - CountIn(log, lo, hi)];
    }
  }

  lemma {:induction false} BelowCountsNothing(log: seq<int>, lo: int, hi: int)
    requires Ordered(log) && (log != [] ==> log[|log| - 1] < lo)
    ensures CountIn(log, lo, hi) == 0
  {
    if log != [] {
      var init := log[..|log| - 1];
      if init != [] { assert init[|init| - 1] <= log[|log| - 1]; }
      BelowCountsNothing(init, lo, hi);
    }
  }

  /** Every half-open window of a paced log holds at most `limit` entries. */
  lemma {:induction false} WindowBound(log: seq<int>, limit: nat, lo: int)
    requires Ordered(log) && Paced(log, limit)
    ensures CountIn(log, lo, lo + WINDOW) <= limit
  {
    if log != [] {
      var n := |log| - 1;
      var init := log[..n];
      assert forall k :: limit <= k < |init| ==> init[k] >= init[k - limit] + WINDOW by {
        forall k | limit <= k < |init|
          ensures init[k] >= init[k - limit] + WINDOW
        {
          assert log[k] >= log[k - limit] + WINDOW;
        }
      }
      WindowBound(init, limit, lo);
      if lo <= log[n] < lo + WINDOW {
        CountIsSpan(log, lo, lo + WINDOW);
      }
    }
  }

  /** How many entries of a log are less than a minute old at time `t`. */
  function Young(log: seq<int>, t: int): nat {
    CountIn(log, t - 59_999, t + 1)
  }

  /** A queue that was just pruned holds exactly those. */
  lemma PrunedIsYoung(queue: seq<int>, log: seq<int>, t: int)
    requires Tracks(queue, log, t)
    ensures |Pruned(queue, t - WINDOW)| == Young(log, t)
  {
    PrunedTracks(queue, log, t);
    PrunedHead(queue, t - WINDOW);
    YoungSuffix(Pruned(queue, t - WINDOW), log, t);
  }

  lemma {:induction false} PrunedHead(queue: seq<int>, cutoff: int)
    ensures Pruned(queue, cutoff) == [] || Pruned(queue, cutoff)[0] > cutoff
  {
    if queue != [] && queue[0] <= cutoff { PrunedHead(queue[1..], cutoff); }
  }

  lemma {:induction false} YoungSuffix(queue: seq<int>, log: seq<int>, t: int)
    requires |queue| <= |log| && queue == log[|log| - |queue|..] && Ordered(log)
    requires forall i :: 0 <= i < |log| ==> log[i] <= t
    requires forall i :: 0 <= i < |log| - |queue| ==> log[i] + WINDOW <= t
    requires queue == [] || queue[0] > t - WINDOW
    ensures Young(log, t) == |queue|
  {
    if log != [] {
      var n := |log| - 1;
      if queue == [] {
        YoungSuffix([], log[..n], t);
      } else {
        assert queue[|queue| - 1] == log[n];
        assert queue[0] <= queue[|queue| - 1] by { assert log[|log| - |queue|] == queue[0]; }
        if |queue| > 1 { assert queue[..|queue| - 1][0] == queue[0]; }
        YoungSuffix(queue[..|queue| - 1], log[..n], t);
      }
    }
  }

  /** The three queues of timestamps, a clock that never goes back, and everything ever admitted. */
  class HyperliquidSource {
    const capacity: CapacityGovernor
    const restLimit: nat
    const connectionLimit: nat
    const attemptLimit: nat
    var clock: int
    var restAdmissions: seq<int>
    var connectionAttempts: seq<int>
    var messages: seq<int>
    var connections: nat
    ghost var restLog: seq<int>
    ghost var attemptLog: seq<int>
    ghost var messageLog: seq<int>

    ghost predicate Valid()
      reads this, capacity
    {
      && capacity.Valid()
      && Tracks(restAdmissions, restLog, clock) && Paced(restLog, restLimit)
      && Tracks(connectionAttempts, attemptLog, clock) && Paced(attemptLog, attemptLimit)
      && Tracks(messages, messageLog, clock) && Paced(messageLog, capacity.Limit(WebsocketMessagesPerMinute))
    }

    constructor (capacity: CapacityGovernor, restLimit: nat, connectionLimit: nat, attemptLimit: nat, clock: int)
      requires capacity.Valid()
      ensures Valid() && this.capacity == capacity
    {
      this.capacity, this.restLimit, this.connectionLimit, this.attemptLimit, this.clock := capacity, restLimit, connectionLimit, attemptLimit, clock;
      restAdmissions, connectionAttempts, messages, connections := [], [], [], 0;
      restLog, attemptLog, messageLog := [], [], [];
    }

    /** now(). */
    method Now() returns (t: int)
      requires Valid()
      modifies this`clock
      ensures Valid() && t == clock >= old(clock)
    {
      t := *;
      if t <= clock {
        return clock;
      }
      TracksLater(restAdmissions, restLog, clock, t);
      TracksLater(connectionAttempts, attemptLog, clock, t);
      TracksLater(messages, messageLog, clock, t);
      clock := t;
    }

    /**
     #admitRestWeight: all of the weight is admitted, at the times of its own clock reads, or none of it;
     admitted exactly when it fits beside what is less than a minute old at `t`, the time of its first clock read. */
    method AdmitRestWeight(weight: nat) returns (ok: bool, ghost t: int)
      requires Valid()
      modifies this`clock, this`restAdmissions, this`restLog, capacity`observed
      ensures Valid() && old(clock) <= t <= clock
      ensures ok <==> Young(old(restLog), t) + weight <= restLimit
      ensures ok ==> |restLog| == |old(restLog)| + weight && old(restLog) <= restLog
      ensures ok ==> forall i :: |old(restLog)| <= i < |restLog| ==> t <= restLog[i] <= clock
      ensures !ok ==> restLog == old(restLog)
    {
      t := PruneRest();
      if |restAdmissions| + weight > restLimit {
        return false, t;
      }
      PushRests(weight, t);
      capacity.Observe(RestWeightPerMinute, |restAdmissions|);
      return true, t;
    }

    /** The loop that pushes one clock read per unit of weight. */
    method PushRests(weight: nat, ghost t: int)
      requires Valid() && |restAdmissions| + weight <= restLimit && t <= clock
      modifies this`clock, this`restAdmissions, this`restLog
      ensures Valid() && t <= clock
      ensures |restLog| == |old(restLog)| + weight && old(restLog) <= restLog
      ensures forall k :: |old(restLog)| <= k < |restLog| ==> t <= restLog[k] <= clock
    {
      ghost var start := |restAdmissions|;
      for i := 0 to weight
        invariant Valid() && |restAdmissions| == start + i
        invariant |restLog| == |old(restLog)| + i && old(restLog) <= restLog
        invariant t <= clock && forall k :: |old(restLog)| <= k < |restLog| ==> t <= restLog[k] <= clock
      {
        PushRest();
      }
    }

    method PruneRest() returns (t: int)
      requires Valid()
      modifies this`clock, this`restAdmissions, capacity`observed
      ensures Valid() && old(clock) <= t == clock && |restAdmissions| == Young(restLog, t)
    {
      t := Now();
      PrunedTracks(restAdmissions, restLog, t);
      PrunedIsYoung(restAdmissions, restLog, t);
      restAdmissions := Pruned(restAdmissions, t - WINDOW);
      capacity.Observe(RestWeightPerMinute, |restAdmissions|);
    }

    method PushRest()
      requires Valid() && |restAdmissions| < restLimit
      modifies this`clock, this`restAdmissions, this`restLog
      ensures Valid() && |restAdmissions| == |old(restAdmissions)| + 1 && old(clock) <= clock
      ensures |restLog| == |old(restLog)| + 1 && old(restLog) <= restLog && restLog[|old(restLog)|] == clock
    {
      var now := Now();
      PushTracks(restAdmissions, restLog, restLimit, now, now);
      restAdmissions := restAdmissions + [now];
      restLog := restLog + [now];
    }

    /** #pruneAttempts. */
    method PruneAttempts() returns (t: int)
      requires Valid()
      modifies this`clock, this`connectionAttempts, capacity`observed
      ensures Valid() && old(clock) <= t == clock && |connectionAttempts| == Young(attemptLog, t)
      ensures capacity.Observed(WebsocketConnections) == old(capacity.Observed(WebsocketConnections))
    {
      t := Now();
      PrunedTracks(connectionAttempts, attemptLog, t);
      PrunedIsYoung(connectionAttempts, attemptLog, t);
      connectionAttempts := Pruned(connectionAttempts, t - WINDOW);
      capacity.Observe(WebsocketConnectionsPerMinute, |connectionAttempts|);
    }

    method PushAttempt()
      requires Valid() && |connectionAttempts| < attemptLimit
      modifies this`clock, this`connectionAttempts, this`attemptLog
      ensures Valid() && |attemptLog| == |old(attemptLog)| + 1 && old(attemptLog) <= attemptLog
      ensures old(clock) <= clock == attemptLog[|old(attemptLog)|]
    {
      var now := Now();
      PushTracks(connectionAttempts, attemptLog, attemptLimit, now, now);
      connectionAttempts := connectionAttempts + [now];
      attemptLog := attemptLog + [now];
    }

    /**
     #reserveConnection: granted exactly when there is room for one more connection, for one more attempt
     beside those less than a minute old at `t`, and in the governor; an attempt is recorded exactly when granted. */
    method ReserveConnection() returns (token: Option<nat>, ghost t: int)
      requires Valid()
      modifies this`clock, this`connectionAttempts, this`attemptLog, this`connections, capacity
      ensures Valid() && old(clock) <= t <= clock
      ensures token.Some? <==>
        && old(connections) + 1 <= connectionLimit && Young(old(attemptLog), t) + 1 <= attemptLimit
        && old(capacity.Observed(WebsocketConnections) + Held(capacity.reservations, WebsocketConnections)) + 1 <= capacity.Limit(WebsocketConnections)
      ensures token.Some? ==> connections == old(connections) + 1 <= connectionLimit
      ensures token.Some? ==> |attemptLog| == |old(attemptLog)| + 1 && old(attemptLog) <= attemptLog && t <= attemptLog[|old(attemptLog)|] <= clock
      ensures token.None? ==> connections == old(connections) && attemptLog == old(attemptLog)
    {
      t := PruneAttempts();
      if connections + 1 > connectionLimit || |connectionAttempts| + 1 > attemptLimit {
        return None, t;
      }
      token := capacity.TryReserve(WebsocketConnections, 1);
      if token.None? {
        return;
      }
      connections := connections + 1;
      PushAttempt();
      capacity.Observe(WebsocketConnectionsPerMinute, |connectionAttempts|);
    }

    method PruneMessages() returns (t: int)
      requires Valid()
      modifies this`clock, this`messages, capacity`observed
      ensures Valid() && capacity.Observed(WebsocketMessagesPerMinute) == |messages|
      ensures old(clock) <= t == clock && |messages| == Young(messageLog, t)
    {
      t := Now();
      PrunedTracks(messages, messageLog, t);
      PrunedIsYoung(messages, messageLog, t);
      messages := Pruned(messages, t - WINDOW);
      capacity.Observe(WebsocketMessagesPerMinute, |messages|);
    }

    method PushMessage()
      requires Valid() && |messages| < capacity.Limit(WebsocketMessagesPerMinute)
      modifies this`clock, this`messages, this`messageLog
      ensures Valid() && |messageLog| == |old(messageLog)| + 1 && old(messageLog) <= messageLog
      ensures old(clock) <= clock == messageLog[|old(messageLog)|]
    {
      var now := Now();
      PushTracks(messages, messageLog, capacity.Limit(WebsocketMessagesPerMinute), now, now);
      messages := messages + [now];
      messageLog := messageLog + [now];
    }

    /**
     #sendBudgeted: the socket is asked exactly when one more message fits beside those less than a minute old
     at `t` and those being sent; a message is recorded exactly when the socket took it. */
    method SendBudgeted() returns (asked: bool, sent: bool, ghost t: int)
      requires Valid()
      modifies this`clock, this`messages, this`messageLog, capacity
      ensures Valid() && old(clock) <= t <= clock
      ensures asked <==>
        Young(old(messageLog), t) + old(Held(capacity.reservations, WebsocketMessagesPerMinute)) + 1 <= capacity.Limit(WebsocketMessagesPerMinute)
      ensures sent ==> asked
      ensures sent ==> |messageLog| == |old(messageLog)| + 1 && old(messageLog) <= messageLog && t <= messageLog[|old(messageLog)|] <= clock
      ensures !sent ==> messageLog == old(messageLog)
      ensures Held(capacity.reservations, WebsocketMessagesPerMinute) == old(Held(capacity.reservations, WebsocketMessagesPerMinute))
    {
      t := PruneMessages();
      var token := capacity.TryReserve(WebsocketMessagesPerMinute, 1);
      if token.None? {
        return false, false, t;
      }
      asked := true;
      sent := *;
      if sent {
        PushMessage();
        capacity.Observe(WebsocketMessagesPerMinute, |messages|);
      }
      capacity.Release(token.value);
    }

    /** Whatever was called before, every half-open 60-second window respects the three limits. */
    lemma WindowsHold(lo: int)
      requires Valid()
      ensures CountIn(restLog, lo, lo + 60_000) <= restLimit
      ensures CountIn(attemptLog, lo, lo + 60_000) <= attemptLimit
      ensures CountIn(messageLog, lo, lo + 60_000) <= capacity.Limit(WebsocketMessagesPerMinute)
    {
      WindowBound(restLog, restLimit, lo);
      WindowBound(attemptLog, attemptLimit, lo);
      WindowBound(messageLog, capacity.Limit(WebsocketMessagesPerMinute), lo);
    }
  }
}
