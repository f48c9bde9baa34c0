/** The promise chain behind the ledger: calls are taken in order, every one ends, and each answer names what the ledger was then. */
module LedgerQueue {
  import opened Base
  import opened Ledger

  function Callers(waiting: seq<Waiting>): seq<Caller> {
    seq(|waiting|, i requires 0 <= i < |waiting| => waiting[i].caller)
  }

  /** Who has called and has not been answered, in the order of the calls. */
  function Pending(b: Book): seq<Caller> {
    (if b.inside.Some? then [b.inside.value.caller] else []) + Callers(b.waiting)
  }

  /** The call at the head ends in this step: its id is known, or its seal has returned or thrown. */
  predicate Ends(b: Book, step: Step) {
    match step
    case Call(_, _) => false
    case Enter => b.inside.None? && b.waiting != [] && b.waiting[0].deletionId in b.byId
    case SealReturns(_) => b.inside.Some?
    case SealThrows => b.inside.Some?
  }

  lemma CallersTail(waiting: seq<Waiting>)
    requires waiting != []
    ensures Callers(waiting) == [waiting[0].caller] + Callers(waiting[1..])
  {
  }

  /** A call joins at the end, and only the one at the head leaves. */
  lemma QueueStep(b: Book, step: Step)
    ensures Ends(b, step) ==> Pending(b) != []
    ensures Pending(Next(b, step)) ==
      if step.Call? then Pending(b) + [step.caller]
      else if Ends(b, step) then Pending(b)[1..]
      else Pending(b)
  {
    match step
    case Call(c, id) =>
      assert Callers(b.waiting + [Waiting(c, id)]) == Callers(b.waiting) + [c];
    case Enter =>
      if b.inside.None? && b.waiting != [] { CallersTail(b.waiting); }
    case SealReturns(_) =>
    case SealThrows =>
  }

  /** Who called in a run, and who was done with, each in order. */
  function Called(steps: seq<Step>): seq<Caller> {
    if steps == [] then []
    else Called(steps[..|steps| - 1]) + if steps[|steps| - 1].Call? then [steps[|steps| - 1].caller] else []
  }

  function Served(steps: seq<Step>): seq<Caller> {
    if steps == [] then []
    else
      var init := steps[..|steps| - 1];
      Served(init) + if Ends(Run(init), steps[|steps| - 1]) && Pending(Run(init)) != [] then [Pending(Run(init))[0]] else []
  }

  /** First come, first served: after every run the served calls, and then the pending ones, are the calls in their order. */
  lemma {:induction false} FirstComeFirstServed(steps: seq<Step>)
    ensures Served(steps) + Pending(Run(steps)) == Called(steps)
  {
    if steps != [] {
      var init, last := steps[..|steps| - 1], steps[|steps| - 1];
      FirstComeFirstServed(init);
      QueueStep(Run(init), last);
      var before := Pending(Run(init));
      if Ends(Run(init), last) { assert before == [before[0]] + before[1..]; }
    }
  }

  /** A call that ends is answered with the item of its id and the length of the ledger at that moment, unless its seal threw or sealed something else; nobody else's answer changes. */
  lemma AnswersExactly(b: Book, step: Step)
    requires BookInv(b)
    ensures var after := Next(b, step);
      if step.Enter? && Ends(b, step)
      then
        var w := b.waiting[0];
        && after.answers == b.answers[w.caller := Answer(w.deletionId, b.byId[w.deletionId],
             Receipt(b.byId[w.deletionId].sequence, |b.items|, w.deletionId))]
        && after.items == b.items && after.byId == b.byId
      else if step.SealReturns? && Ends(b, step) && step.item.sequence == |b.items| + 1 && step.item.deletionId == b.inside.value.deletionId
      then
        var c, id := b.inside.value.caller, b.inside.value.deletionId;
        && after.answers == b.answers[c := Answer(id, step.item, Receipt(|b.items| + 1, |b.items| + 1, id))]
        && after.items == b.items + [step.item] && after.byId == b.byId[id := step.item]
      else after.answers == b.answers && after.items == b.items && after.byId == b.byId
  {
  }

  /** The steps that end the head of the queue, whatever its seal does. */
  function Rounds(n: nat): seq<Step> {
    if n == 0 then [] else [Enter, SealThrows] + Rounds(n - 1)
  }

  function RunFrom(b: Book, steps: seq<Step>): Book
    decreases |steps|
  {
    if steps == [] then b else RunFrom(Next(b, steps[0]), steps[1..])
  }

  /** No call blocks the chain, not even one whose seal throws: as many rounds as there are calls empty it. */
  lemma {:induction false} ChainEmpties(b: Book, n: nat)
    requires |Pending(b)| <= n
    ensures Pending(RunFrom(b, Rounds(n))) == []
    decreases n
  {
    if n > 0 {
      var rounds := Rounds(n);
      var b1 := Next(b, Enter);
      var b2 := Next(b1, SealThrows);
      QueueStep(b, Enter);
      QueueStep(b1, SealThrows);
      assert rounds[1..][0] == SealThrows && rounds[1..][1..] == Rounds(n - 1);
      assert RunFrom(b, rounds) == RunFrom(b1, rounds[1..]);
      assert RunFrom(b1, rounds[1..]) == RunFrom(b2, Rounds(n - 1));
      ChainEmpties(b2, n - 1);
    }
  }
}
