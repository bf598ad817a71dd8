/** The per-block event loop and its one-slot delayed function: src/sync_handlers/event_sync.ts. */
module EventPipeline {

  import opened Wrappers

  // What a handler hands back to be run later; `fails` says whether running it raises.
  datatype Deferral = Deferral(skip: int, fails: bool)

  // How the handler of one event ends.
  datatype Handling = Raised | Returned(deferral: Option<Deferral>)

  datatype Slot = Empty | Pending(event: nat, skip: int, fails: bool)

  datatype Action = Handled(event: nat) | Ran(event: nat)

  datatype Outcome = Outcome(trace: seq<Action>, raised: bool)

  function SlotOf(i: nat, h: Handling): Slot
    requires h.Returned?
  {
    match h.deferral
    case None => Empty
    case Some(d) => Pending(i, d.skip, d.fails)
  }

  function Then(trace: seq<Action>, rest: Outcome): Outcome {
    Outcome(trace + rest.trace, rest.raised)
  }

  predicate IsDue(slot: Slot) {
    slot.Pending? && slot.skip == 1
  }

  // The slot is replaced only when it is empty or has just been run.
  function NextSlot(events: seq<Handling>, i: nat, slot: Slot): Slot
    requires i < |events| && events[i].Returned?
  {
    if slot.Pending? && slot.skip != 1 then slot.(skip := slot.skip - 1) else SlotOf(i, events[i])
  }

  // What event i adds to the trace: its handler, then the deferred function whose turn it is.
  function Here(i: nat, slot: Slot): seq<Action> {
    if IsDue(slot) then [Handled(i), Ran(slot.event)] else [Handled(i)]
  }

  // The loop from event i on, with the slot it finds.
  function Run(events: seq<Handling>, i: nat, slot: Slot): Outcome
    requires i <= |events|
    decreases |events| - i
  {
    if i == |events| then Outcome([], false)
    else if events[i].Raised? then Outcome([], true)
    else if IsDue(slot) && slot.fails then Outcome(Here(i, slot), true)
    else Then(Here(i, slot), Run(events, i + 1, NextSlot(events, i, slot)))
  }

  method SyncEvents(events: seq<Handling>) returns (trace: seq<Action>, raised: bool)
    ensures Outcome(trace, raised) == Run(events, 0, Empty)
  {
    var delayedFunction := Empty;
    trace, raised := [], false;
    for i := 0 to |events|
      invariant !raised
      invariant Run(events, 0, Empty) == Then(trace, Run(events, i, delayedFunction))
    {
      ghost var before, slot := trace, delayedFunction;
      match events[i] {
        case Raised =>
          raised := true;
          return;
        case Returned(_) =>
      }
      trace := trace + [Handled(i)];
      if delayedFunction.Pending? && delayedFunction.skip == 1 {
        trace := trace + [Ran(delayedFunction.event)];
        assert trace == before + Here(i, slot);
        if delayedFunction.fails {
          raised := true;
          return;
        }
      }
      if delayedFunction.Pending? && delayedFunction.skip != 1 {
        delayedFunction := delayedFunction.(skip := delayedFunction.skip - 1);
      } else {
        delayedFunction := SlotOf(i, events[i]);
      }
      assert trace == before + Here(i, slot);
      ThenThen(before, Here(i, slot), Run(events, i + 1, delayedFunction));
    }
  }

  lemma ThenThen(a: seq<Action>, b: seq<Action>, rest: Outcome)
    ensures Then(a, Then(b, rest)) == Then(a + b, rest)
  {
    assert a + (b + rest.trace) == (a + b) + rest.trace;
  }

  // -------------------------------------------------------------------------
  // Nothing runs twice
  // -------------------------------------------------------------------------

  function Times(trace: seq<Action>, a: Action): nat {
    if trace == [] then 0
    else Times(trace[..|trace| - 1], a) + if trace[|trace| - 1] == a then 1 else 0
  }

  lemma {:induction false} TimesConcat(here: seq<Action>, rest: seq<Action>, a: Action)
    ensures Times(here + rest, a) == Times(here, a) + Times(rest, a)
  {
    if rest == [] {
      assert here + rest == here;
    } else {
      assert (here + rest)[..|here + rest| - 1] == here + rest[..|rest| - 1];
      TimesConcat(here, rest[..|rest| - 1], a);
    }
  }

  lemma {:induction false} TimesIn(trace: seq<Action>, a: Action)
    ensures a in trace <==> Times(trace, a) > 0
  {
    if trace != [] {
      TimesIn(trace[..|trace| - 1], a);
    }
  }

  lemma TimesHere(i: nat, slot: Slot, j: nat)
    ensures Times(Here(i, slot), Ran(j)) == if IsDue(slot) && slot.event == j then 1 else 0
  {
    assert Times([Handled(i)], Ran(j)) == 0;
    if IsDue(slot) {
      assert Here(i, slot)[..1] == [Handled(i)];
    }
  }

  /** In every block, whatever the handlers do, a deferred function runs at most once, and only if it
      was handed back by an event before. */
  lemma {:induction false} NothingRunsTwice(events: seq<Handling>, i: nat, slot: Slot, j: nat)
    requires i <= |events|
    requires slot.Pending? ==> slot.event < i
    ensures Times(Run(events, i, slot).trace, Ran(j)) <= 1
    ensures Times(Run(events, i, slot).trace, Ran(j)) == 1 ==>
              || (slot.Pending? && slot.event == j)
              || (i <= j < |events| && Defers(events, j))
    decreases |events| - i
  {
    hide Times, Here, NextSlot;
    if i < |events| && events[i].Returned? {
      TimesHere(i, slot, j);
      NextSlotFrom(events, i, slot);
      var next := NextSlot(events, i, slot);
      NothingRunsTwice(events, i + 1, next, j);
      TimesConcat(Here(i, slot), Run(events, i + 1, next).trace, Ran(j));
    }
    NoTimes(Ran(j));
  }

  lemma NoTimes(a: Action)
    ensures Times([], a) == 0
  {
  }

  lemma NextSlotFrom(events: seq<Handling>, i: nat, slot: Slot)
    requires i < |events| && events[i].Returned? && (slot.Pending? ==> slot.event < i)
    ensures var next := NextSlot(events, i, slot);
            next.Pending? ==>
              if next.event == i then Defers(events, i) && (slot.Pending? ==> slot.skip == 1)
              else slot.Pending? && next.event == slot.event && !IsDue(slot)
  {
  }

  // -------------------------------------------------------------------------
  // The simple reading: a function deferred by event i with skip k runs right after event i + k
  // -------------------------------------------------------------------------

  predicate Defers(events: seq<Handling>, i: int) {
    0 <= i < |events| && events[i].Returned? && events[i].deferral.Some?
  }

  function Target(events: seq<Handling>, i: int): int
    requires Defers(events, i)
  {
    i + events[i].deferral.value.skip
  }

  // The deferral of event i lands inside the block, with no other deferral on the way.
  ghost predicate FitsAt(events: seq<Handling>, i: int)
    requires Defers(events, i)
  {
    && i < Target(events, i) < |events|
    && forall j :: i < j < Target(events, i) ==> !Defers(events, j)
  }

  ghost predicate Fits(events: seq<Handling>) {
    forall i :: Defers(events, i) ==> FitsAt(events, i)
  }

  ghost predicate Quiet(events: seq<Handling>) {
    forall i :: 0 <= i < |events| ==>
      events[i].Returned? && (events[i].deferral.Some? ==> !events[i].deferral.value.fails)
  }

  // When no deferred function fails, only a handler can raise.
  lemma {:induction false} RaisedFrom(events: seq<Handling>, i: nat, slot: Slot)
    requires i <= |events| && (slot.Pending? ==> !slot.fails)
    requires forall j :: 0 <= j < |events| && events[j].Returned? && events[j].deferral.Some? ==>
               !events[j].deferral.value.fails
    ensures Run(events, i, slot).raised <==> exists j :: i <= j < |events| && events[j].Raised?
    decreases |events| - i
  {
    if i < |events| && events[i].Returned? {
      RaisedFrom(events, i + 1, NextSlot(events, i, slot));
    }
  }

  // Every function deferred by one of the first n events to run after event t.
  function Due(events: seq<Handling>, t: nat, n: nat): seq<Action> {
    if n == 0 then []
    else Due(events, t, n - 1)
         + if Defers(events, n - 1) && Target(events, n - 1) == t then [Ran(n - 1)] else []
  }

  function SimpleTrace(events: seq<Handling>, i: nat): seq<Action>
    requires i <= |events|
    decreases |events| - i
  {
    if i == |events| then [] else SimpleHere(events, i) + SimpleTrace(events, i + 1)
  }

  function SimpleHere(events: seq<Handling>, i: nat): seq<Action> {
    [Handled(i)] + Due(events, i, i)
  }

  // The slot holds the only earlier deferral that is still to come, if there is one.
  ghost predicate SlotMatches(events: seq<Handling>, i: nat, slot: Slot) {
    && (slot.Pending? ==>
          && slot.event < i && Defers(events, slot.event) && !slot.fails
          && Target(events, slot.event) == i + slot.skip - 1 && slot.skip >= 1)
    && forall j :: 0 <= j < i && Defers(events, j) && Target(events, j) >= i ==> slot.Pending? && slot.event == j
  }

  lemma {:induction false} NoneDue(events: seq<Handling>, t: nat, n: nat)
    requires forall j :: 0 <= j < n && Defers(events, j) ==> Target(events, j) != t
    ensures Due(events, t, n) == []
  {
    if n > 0 {
      NoneDue(events, t, n - 1);
    }
  }

  lemma {:induction false} OneDue(events: seq<Handling>, t: nat, n: nat, e: nat)
    requires e < n && Defers(events, e) && Target(events, e) == t
    requires forall j :: 0 <= j < n && Defers(events, j) && Target(events, j) == t ==> j == e
    ensures Due(events, t, n) == [Ran(e)]
  {
    if e == n - 1 {
      NoneDue(events, t, n - 1);
    } else {
      OneDue(events, t, n - 1, e);
    }
  }

  lemma SlotStillMatches(events: seq<Handling>, i: nat, slot: Slot)
    requires i < |events| && Quiet(events) && Fits(events) && SlotMatches(events, i, slot)
    ensures SlotMatches(events, i + 1, NextSlot(events, i, slot))
  {
    if slot.Pending? {
      assert FitsAt(events, slot.event);
    }
    if Defers(events, i) {
      assert FitsAt(events, i);
    }
  }

  lemma {:induction false} RunIsSimpleFrom(events: seq<Handling>, i: nat, slot: Slot)
    requires i <= |events| && Quiet(events) && Fits(events) && SlotMatches(events, i, slot)
    ensures Run(events, i, slot) == Outcome(SimpleTrace(events, i), false)
    decreases |events| - i
  {
    if i < |events| {
      HereIsSimple(events, i, slot);
      SlotStillMatches(events, i, slot);
      hide Fits, SlotMatches, NextSlot, SimpleHere, Here;
      RunIsSimpleFrom(events, i + 1, NextSlot(events, i, slot));
    }
  }

  lemma HereIsSimple(events: seq<Handling>, i: nat, slot: Slot)
    requires SlotMatches(events, i, slot)
    ensures Here(i, slot) == SimpleHere(events, i)
  {
    if IsDue(slot) {
      OneDue(events, i, i, slot.event);
    } else {
      NoneDue(events, i, i);
    }
  }

  /** When every deferral fits, the loop does what the simple reading says: each event in turn, each
      deferred function immediately after its target event. */
  lemma LoopRefinesSimpleTrace(events: seq<Handling>)
    requires Quiet(events) && Fits(events)
    ensures Run(events, 0, Empty) == Outcome(SimpleTrace(events, 0), false)
  {
    RunIsSimpleFrom(events, 0, Empty);
  }

  // The slot is free for the deferral of event i: every one accepted before has run by then.
  predicate Accepted(events: seq<Handling>, i: int)
    decreases i
  {
    Defers(events, i) && forall j :: 0 <= j < i && Accepted(events, j) ==> j < Target(events, j) <= i
  }

  // The slot holds the one accepted deferral that has not run, if there is one.
  ghost predicate SlotHolds(events: seq<Handling>, i: nat, slot: Slot) {
    && (slot.Pending? ==>
          && slot.event < i && Accepted(events, slot.event) && !slot.fails
          && Target(events, slot.event) == i + slot.skip - 1
          && (Target(events, slot.event) <= slot.event || Target(events, slot.event) >= i))
    && forall j :: 0 <= j < i && Accepted(events, j) ==>
         j < Target(events, j) < i || (slot.Pending? && slot.event == j)
  }

  lemma SlotStillHolds(events: seq<Handling>, i: nat, slot: Slot)
    requires i < |events| && Quiet(events) && SlotHolds(events, i, slot)
    ensures SlotHolds(events, i + 1, NextSlot(events, i, slot))
    ensures forall j: nat :: Ran(j) in Here(i, slot) <==> Accepted(events, j) && j < Target(events, j) == i
  {
    if slot.Pending? && slot.skip != 1 {
      assert !Accepted(events, i);
    }
    if IsDue(slot) {
      assert Here(i, slot)[1] == Ran(slot.event);
    }
  }

  lemma {:induction false} RunsIffAcceptedFrom(events: seq<Handling>, i: nat, slot: Slot, j: nat)
    requires i <= |events| && Quiet(events) && SlotHolds(events, i, slot)
    ensures Ran(j) in Run(events, i, slot).trace <==>
              Accepted(events, j) && j < Target(events, j) && i <= Target(events, j) < |events|
    decreases |events| - i
  {
    hide SlotHolds, NextSlot, Here, Accepted;
    if i < |events| {
      SlotStillHolds(events, i, slot);
      QuietStep(events, i, slot);
      hide Run, Quiet, Then;
      var rest := Run(events, i + 1, NextSlot(events, i, slot));
      RunsIffAcceptedFrom(events, i + 1, NextSlot(events, i, slot), j);
      assert Ran(j) in Here(i, slot) + rest.trace <==> Ran(j) in Here(i, slot) || Ran(j) in rest.trace;
    }
  }

  lemma QuietStep(events: seq<Handling>, i: nat, slot: Slot)
    requires i < |events| && Quiet(events) && SlotHolds(events, i, slot)
    ensures events[i].Returned?
    ensures var rest := Run(events, i + 1, NextSlot(events, i, slot));
            Run(events, i, slot) == Then(Here(i, slot), rest)
            && Then(Here(i, slot), rest) == Outcome(Here(i, slot) + rest.trace, rest.raised)
  {
  }

  /** One deferral by itself, whatever the others do: it runs exactly when the slot was free for it and its
      target lies behind it inside the block. */
  lemma RunsIffAccepted(events: seq<Handling>, j: nat)
    requires Quiet(events)
    ensures Ran(j) in Run(events, 0, Empty).trace <==> Accepted(events, j) && j < Target(events, j) < |events|
  {
    RunsIffAcceptedFrom(events, 0, Empty, j);
  }

  /** Exactly when do all deferred functions run: when each of them fits. A deferral that does not fit
      is lost, or makes another one lost, without any error. */
  lemma AllRunIffFits(events: seq<Handling>)
    requires Quiet(events)
    ensures (forall j :: Defers(events, j) ==> Ran(j) in Run(events, 0, Empty).trace) <==> Fits(events)
  {
    hide Run;
    forall j: nat
      ensures Ran(j) in Run(events, 0, Empty).trace <==> Accepted(events, j) && j < Target(events, j) < |events|
    {
      RunsIffAccepted(events, j);
    }
    if Fits(events) {
      forall j | Defers(events, j)
        ensures Accepted(events, j) && j < Target(events, j) < |events|
      {
        FitsIsAccepted(events, j);
      }
    } else {
      var i :| Defers(events, i) && !FitsAt(events, i);
      if i < Target(events, i) < |events| {
        var j :| i < j < Target(events, i) && Defers(events, j);
        assert !(Accepted(events, i) && Accepted(events, j));
      }
    }
  }

  lemma FitsIsAccepted(events: seq<Handling>, j: int)
    requires Fits(events) && Defers(events, j)
    ensures Accepted(events, j) && j < Target(events, j) < |events|
  {
    assert FitsAt(events, j);
    forall i | 0 <= i < j && Accepted(events, i)
      ensures i < Target(events, i) <= j
    {
      assert Defers(events, i) && FitsAt(events, i);
    }
  }
}
