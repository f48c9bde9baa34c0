/** The entry as the object a reconcile task and its callbacks mutate, one method per stretch between awaits. */
module MonitorObjects {
  import opened Base
  import opened Monitor

  class MonitorEntry {
    var registered: bool
    var leaseGeneration: Option<nat>
    var baselineAccepted: bool
    var baselineValue: Value
    var streamClose: Option<nat>
    var controller: Option<nat>
    var reconciling: Option<Pc>
    var leaseTimer: bool
    var controllers: nat
    var aborted: set<nat>
    var sourceStreams: map<nat, bool>

    function View(): Core
      reads this
    {
      Core(registered, leaseGeneration, baselineAccepted, baselineValue, streamClose, controller, reconciling,
           leaseTimer, controllers, aborted, sourceStreams)
    }

    constructor ()
      ensures View() == NEW_CORE
    {
      registered, leaseGeneration, baselineAccepted, baselineValue := true, None, false, None;
      streamClose, controller, reconciling, leaseTimer := None, None, None, false;
      controllers, aborted, sourceStreams := 0, {}, map[];
    }

    method StopStream()
      modifies this
      ensures View() == Stop(old(View()))
    {
      baselineAccepted := false;
      baselineValue := None;
      if controller.Some? {
        aborted := aborted + {controller.value};
      }
      controller := None;
      if streamClose.Some? {
        sourceStreams := sourceStreams[streamClose.value := false];
      }
      streamClose := None;
    }

    method Unregister()
      modifies this
      ensures View() == Retire(old(View()))
    {
      registered := false;
      leaseTimer := false;
      StopStream();
    }

    method BeginReconcile(renewDue: bool)
      modifies this
      ensures View() == Begin(old(View()), renewDue)
    {
      if reconciling.Some? || !registered {
        return;
      }
      if leaseGeneration.None? {
        reconciling := Some(AskAcquire);
      } else if renewDue {
        reconciling := Some(AskRenew);
      } else {
        ContinueReconcile();
      }
    }

    method ContinueReconcile()
      modifies this
      ensures View() == Continue(old(View()))
    {
      if streamClose.Some? {
        reconciling := None;
        return;
      }
      controller := Some(controllers);
      reconciling := Some(AskSnapshot(controllers));
      controllers := controllers + 1;
      baselineAccepted := false;
    }

    method LeaseAcquired(generation: Option<nat>)
      modifies this
      ensures View() == Acquired(old(View()), generation)
    {
      if reconciling != Some(Acquiring) {
        return;
      }
      if generation.None? {
        reconciling := None;
        return;
      }
      leaseGeneration := generation;
      leaseTimer := true;
      ContinueReconcile();
    }

    method LeaseRenewed(renewed: bool)
      modifies this
      ensures View() == Renewed(old(View()), renewed)
    {
      if reconciling != Some(Renewing) {
        return;
      }
      if !renewed {
        leaseGeneration := None;
        leaseTimer := false;
        StopStream();
        reconciling := None;
        return;
      }
      leaseTimer := true;
      ContinueReconcile();
    }

    /** What is published, if the snapshot is accepted. */
    method SnapshotLoaded(snapshot: Value) returns (told: Option<Update>)
      modifies this
      ensures View() == Loaded(old(View()), snapshot)
      ensures told == Announced(old(View()), OnLoaded(snapshot))
    {
      told := None;
      if reconciling.None? || !reconciling.value.Loading? {
        return;
      }
      var mine := reconciling.value.epoch;
      if mine in aborted || !registered || leaseGeneration.None? {
        reconciling := None;
        return;
      }
      baselineAccepted := true;
      baselineValue := snapshot;
      told := Some(Baseline(mine, snapshot));
      reconciling := Some(AskOpen(mine));
    }

    method StreamOpened()
      modifies this
      ensures View() == Opened(old(View()))
    {
      if reconciling.None? || !reconciling.value.Opening? {
        return;
      }
      var mine := reconciling.value.epoch;
      if mine in aborted {
        sourceStreams := sourceStreams[mine := false];
      } else {
        streamClose := Some(mine);
      }
      reconciling := None;
    }

    method LeaseExpired()
      modifies this
      ensures View() == Expire(old(View()))
    {
      if leaseTimer {
        leaseTimer := false;
        leaseGeneration := None;
        StopStream();
      }
    }

    /** onGap of the stream opened under `mine`; one whose controller was aborted does nothing. */
    method GapReported(mine: nat)
      requires mine in sourceStreams
      modifies this
      ensures mine in old(aborted) ==> View() == old(View())
      ensures mine !in old(aborted) ==>
        && !baselineAccepted && baselineValue.None? && controller.None? && streamClose.None?
        && (old(controller) == Some(mine) ==> mine in aborted)
        && (old(streamClose) == Some(mine) ==> sourceStreams == old(sourceStreams)[mine := false])
        && reconciling == old(reconciling) && leaseGeneration == old(leaseGeneration) && leaseTimer == old(leaseTimer)
      ensures View() == OnGap(old(View()), mine)
    {
      if mine in aborted {
        return;
      }
      StopStream();
    }

    /** onDelta of that stream: what is published, if the baseline is accepted and its controller was not aborted. */
    method DeltaArrived(mine: nat, value: Value) returns (told: Option<Update>)
      requires mine in sourceStreams
      ensures told == (if baselineAccepted && mine !in aborted then Some(Delta(mine, value)) else None)
      ensures told == Announced(View(), OnDelta(mine, value))
    {
      if !baselineAccepted || mine in aborted {
        return None;
      }
      return Some(Delta(mine, value));
    }
  }
}
