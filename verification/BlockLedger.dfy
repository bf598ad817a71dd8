/** The two halves of src/sync_handlers together: what one block's event loop, with its delayed
    functions, leaves in the token ledger. */
module BlockLedger {
  import opened Wrappers
  import opened TokenLedger
  import opened WasmAttributes
  import T = TokenEvents
  import P = EventPipeline

  // Events of the block: of a token contract, an entity mint (its owner update waits for two events),
  // or any other.
  datatype Event = TokenEvent(attributes: seq<Attribute>) | EntityMint | OtherEvent(fails: bool)

  function HandlingOf(e: Event, parse: T.Parser): P.Handling {
    match e
    case TokenEvent(attributes) =>
      (match T.ProcessEvent(attributes, parse).ending
       case Finished => P.Returned(None)
       case Deferred(_) => P.Returned(Some(P.Deferral(1, false)))
       case Failed => P.Raised)
    case EntityMint => P.Returned(Some(P.Deferral(2, false)))
    case OtherEvent(fails) => if fails then P.Raised else P.Returned(None)
  }

  function HandlingsOf(events: seq<Event>, parse: T.Parser): (handlings: seq<P.Handling>)
    ensures |handlings| == |events|
  {
    seq(|events|, i requires 0 <= i < |events| => HandlingOf(events[i], parse))
  }

  function RowsOf(e: Event, parse: T.Parser): seq<TokenTransaction> {
    if e.TokenEvent? then T.ProcessEvent(e.attributes, parse).rows else []
  }

  // The mint a token event leaves for after the next event.
  function MintOf(e: Event, parse: T.Parser): seq<TokenTransaction> {
    if e.TokenEvent? then
      match T.ProcessEvent(e.attributes, parse).ending
      case Deferred(t) => [t]
      case _ => []
    else []
  }

  function Written(a: P.Action, events: seq<Event>, parse: T.Parser): seq<TokenTransaction> {
    if a.event >= |events| then []
    else if a.Handled? then RowsOf(events[a.event], parse) else MintOf(events[a.event], parse)
  }

  // The ledger rows of a trace of the loop, in order.
  function RowsOfTrace(trace: seq<P.Action>, events: seq<Event>, parse: T.Parser): seq<TokenTransaction> {
    if trace == [] then []
    else RowsOfTrace(trace[..|trace| - 1], events, parse) + Written(trace[|trace| - 1], events, parse)
  }

  // The simple reading: each event's own rows, then the mint left by the event before it.
  function BlockRows(events: seq<Event>, n: nat, parse: T.Parser): seq<TokenTransaction>
    requires n <= |events|
  {
    if n == 0 then []
    else BlockRows(events, n - 1, parse) + RowsOf(events[n - 1], parse)
         + if n >= 2 then MintOf(events[n - 2], parse) else []
  }

  lemma {:induction false} RowsConcat(a: seq<P.Action>, b: seq<P.Action>, events: seq<Event>, parse: T.Parser)
    ensures RowsOfTrace(a + b, events, parse) == RowsOfTrace(a, events, parse) + RowsOfTrace(b, events, parse)
  {
    hide Written;
    if b == [] {
      assert a + b == a;
    } else {
      assert (a + b)[..|a + b| - 1] == a + b[..|b| - 1] && (a + b)[|a + b| - 1] == b[|b| - 1];
      RowsConcat(a, b[..|b| - 1], events, parse);
    }
  }

  lemma RowsOfOne(a: P.Action, events: seq<Event>, parse: T.Parser)
    ensures RowsOfTrace([a], events, parse) == Written(a, events, parse)
  {
    hide Written;
    assert [a][..0] == [];
  }

  lemma NoRows(events: seq<Event>, parse: T.Parser)
    ensures RowsOfTrace([], events, parse) == []
  {
    hide Written;
  }

  // -------------------------------------------------------------------------
  // Which mints reach the ledger
  // -------------------------------------------------------------------------

  // How many entity mints stand in a row directly before event i.
  function EntityMintsBefore(events: seq<Event>, i: nat): nat
    requires i <= |events|
  {
    if i == 0 || !events[i - 1].EntityMint? then 0 else EntityMintsBefore(events, i - 1) + 1
  }

  // Every other one of them keeps the slot taken over the event behind it.
  predicate FindsSlotFree(events: seq<Event>, i: nat)
    requires i <= |events|
  {
    EntityMintsBefore(events, i) % 2 == 0
  }

  // Each event's own rows, then the mint left by the event before it if that found the slot free.
  function KeptRows(events: seq<Event>, n: nat, parse: T.Parser): seq<TokenTransaction>
    requires n <= |events|
  {
    if n == 0 then []
    else KeptRows(events, n - 1, parse) + RowsOf(events[n - 1], parse) + KeptMint(events, n - 1, parse)
  }

  // What is kept of the mint left by the event before event i.
  function KeptMint(events: seq<Event>, i: nat, parse: T.Parser): seq<TokenTransaction>
    requires i < |events|
  {
    if i > 0 && FindsSlotFree(events, i - 1) then MintOf(events[i - 1], parse) else []
  }

  lemma DeferralsOf(events: seq<Event>, i: nat, parse: T.Parser)
    requires i < |events|
    ensures var handlings := HandlingsOf(events, parse);
            && (P.Defers(handlings, i) ==> P.Target(handlings, i) == if events[i].EntityMint? then i + 2 else i + 1)
            && (MintOf(events[i], parse) != [] ==> P.Defers(handlings, i) && !events[i].EntityMint?)
            && (events[i].EntityMint? ==> P.Defers(handlings, i))
  {
    hide T.ProcessEvent;
    assert HandlingsOf(events, parse)[i] == HandlingOf(events[i], parse);
  }

  /** Of consecutive entity mints the first, third and so on have their owner update accepted; what directly
      follows one of these does not find the slot free. */
  lemma {:induction false} AcceptedIffSlotFree(events: seq<Event>, i: nat, parse: T.Parser)
    requires i < |events| && P.Defers(HandlingsOf(events, parse), i)
    ensures P.Accepted(HandlingsOf(events, parse), i) <==> FindsSlotFree(events, i)
  {
    hide HandlingsOf, MintOf;
    var handlings := HandlingsOf(events, parse);
    forall j: nat | j < i && P.Defers(handlings, j)
      ensures j < P.Target(handlings, j) <= j + 2
      ensures P.Target(handlings, j) > i <==> j == i - 1 && events[j].EntityMint?
    {
      DeferralsOf(events, j, parse);
    }
    if i > 0 && events[i - 1].EntityMint? {
      DeferralsOf(events, i - 1, parse);
      AcceptedIffSlotFree(events, i - 1, parse);
    }
  }

  lemma RowsOfHere(events: seq<Event>, i: nat, slot: P.Slot, parse: T.Parser)
    requires i < |events| && (slot.Pending? ==> slot.event < i)
    ensures RowsOfTrace(P.Here(i, slot), events, parse) ==
            RowsOf(events[i], parse) + if P.IsDue(slot) then MintOf(events[slot.event], parse) else []
  {
    hide RowsOf, MintOf, RowsOfTrace;
    RowsOfOne(P.Handled(i), events, parse);
    if P.IsDue(slot) {
      RowsConcat([P.Handled(i)], [P.Ran(slot.event)], events, parse);
      RowsOfOne(P.Ran(slot.event), events, parse);
      assert P.Here(i, slot) == [P.Handled(i)] + [P.Ran(slot.event)];
    }
  }

  // The slot is due with the mint left by event i - 1 exactly when that is kept.
  lemma SlotDue(events: seq<Event>, i: nat, slot: P.Slot, j: nat, parse: T.Parser)
    requires i < |events| && P.Quiet(HandlingsOf(events, parse)) && P.SlotHolds(HandlingsOf(events, parse), i, slot)
    requires j < i && P.Defers(HandlingsOf(events, parse), j)
    ensures P.IsDue(slot) && slot.event == j <==>
              FindsSlotFree(events, j) && i == if events[j].EntityMint? then j + 2 else j + 1
  {
    hide HandlingsOf, P.Here, FindsSlotFree;
    P.SlotStillHolds(HandlingsOf(events, parse), i, slot);
    hide P.Quiet, P.SlotHolds, P.Accepted;
    RanHere(i, slot, j);
    DeferralsOf(events, j, parse);
    AcceptedIffSlotFree(events, j, parse);
  }

  lemma DueIsDeferred(handlings: seq<P.Handling>, i: nat, slot: P.Slot)
    requires P.SlotHolds(handlings, i, slot)
    ensures slot.Pending? ==> slot.event < i && P.Defers(handlings, slot.event)
  {
  }

  // Of the functions that run after event i only a mint left by event i - 1 writes to the ledger.
  lemma MintHere(events: seq<Event>, i: nat, slot: P.Slot, parse: T.Parser)
    requires i < |events| && P.Quiet(HandlingsOf(events, parse)) && P.SlotHolds(HandlingsOf(events, parse), i, slot)
    ensures slot.Pending? ==> slot.event < i
    ensures (if P.IsDue(slot) then MintOf(events[slot.event], parse) else []) == KeptMint(events, i, parse)
  {
    hide HandlingsOf, MintOf, P.Quiet, P.SlotHolds, FindsSlotFree;
    DueIsDeferred(HandlingsOf(events, parse), i, slot);
    if P.IsDue(slot) {
      SlotDue(events, i, slot, slot.event, parse);
      DeferralsOf(events, slot.event, parse);
    }
    if i > 0 {
      DeferralsOf(events, i - 1, parse);
      if P.Defers(HandlingsOf(events, parse), i - 1) {
        SlotDue(events, i, slot, i - 1, parse);
      }
    }
  }

  lemma RanHere(i: nat, slot: P.Slot, j: nat)
    ensures P.Ran(j) in P.Here(i, slot) <==> P.IsDue(slot) && slot.event == j
  {
    if P.IsDue(slot) {
      assert P.Here(i, slot)[1] == P.Ran(slot.event);
    }
  }

  lemma {:induction false} RowsFrom(events: seq<Event>, i: nat, slot: P.Slot, parse: T.Parser)
    requires i <= |events| && P.Quiet(HandlingsOf(events, parse)) && P.SlotHolds(HandlingsOf(events, parse), i, slot)
    ensures var r := P.Run(HandlingsOf(events, parse), i, slot);
            && !r.raised
            && KeptRows(events, i, parse) + RowsOfTrace(r.trace, events, parse) == KeptRows(events, |events|, parse)
    decreases |events| - i
  {
    hide HandlingsOf, RowsOfTrace, RowsOf, KeptMint, KeptRows, MintOf;
    hide P.SlotHolds, P.NextSlot, P.Run, P.Quiet, P.Here, P.IsDue;
    var handlings := HandlingsOf(events, parse);
    if i == |events| {
      RunEnded(handlings, slot);
      NoRows(events, parse);
    } else {
      P.QuietStep(handlings, i, slot);
      P.SlotStillHolds(handlings, i, slot);
      MintHere(events, i, slot, parse);
      var next := P.NextSlot(handlings, i, slot);
      var rest := P.Run(handlings, i + 1, next);
      RowsFrom(events, i + 1, next, parse);
      RowsConcat(P.Here(i, slot), rest.trace, events, parse);
      RowsOfHere(events, i, slot, parse);
      OneEventMore(events, i, RowsOfTrace(rest.trace, events, parse), parse);
    }
  }

  lemma RunEnded(handlings: seq<P.Handling>, slot: P.Slot)
    ensures P.Run(handlings, |handlings|, slot) == P.Outcome([], false)
  {
  }

  lemma OneEventMore(events: seq<Event>, i: nat, rest: seq<TokenTransaction>, parse: T.Parser)
    requires i < |events|
    ensures KeptRows(events, i + 1, parse) + rest ==
            KeptRows(events, i, parse) + (RowsOf(events[i], parse) + KeptMint(events, i, parse) + rest)
  {
    hide MintOf, RowsOf, KeptMint;
  }

  /** In every block that does not raise, the event loop appends to the ledger exactly each token event's own
      rows in order, with the mint of an event right behind the rows of the next one if there is a next one
      and an even number of entity mints, or none, stands directly before the event; and the balances are those
      of that ledger. */
  lemma {:induction false} QuietBlockWrites(events: seq<Event>, parse: T.Parser, ledger: seq<TokenTransaction>)
    requires P.Quiet(HandlingsOf(events, parse))
    ensures var r := P.Run(HandlingsOf(events, parse), 0, P.Empty);
            var balances := Index(ledger + RowsOfTrace(r.trace, events, parse));
            var after := ledger + KeptRows(events, |events|, parse);
            && !r.raised
            && RowsOfTrace(r.trace, events, parse) == KeptRows(events, |events|, parse)
            && forall k: Key ::
                 && (k in balances <==> k.address != "" && LedgerBalance(after, k) != ZERO)
                 && (k in balances ==> balances[k] == LedgerBalance(after, k))
  {
    hide RowsOfTrace, P.Run, HandlingsOf, RowsOf, KeptMint, P.Quiet, Index, LedgerBalance;
    RowsFrom(events, 0, P.Empty, parse);
    NoRowsYet(events, RowsOfTrace(P.Run(HandlingsOf(events, parse), 0, P.Empty).trace, events, parse), parse);
    hide KeptRows;
    BalancesOf(ledger + KeptRows(events, |events|, parse));
  }

  predicate Breaks(e: Event, parse: T.Parser) {
    match e
    case TokenEvent(attributes) => T.ProcessEvent(attributes, parse).ending.Failed?
    case EntityMint => false
    case OtherEvent(fails) => fails
  }

  /** A block raises exactly when one of its events does: a token event that fails, or another handler. */
  lemma RaisesIffNotQuiet(events: seq<Event>, parse: T.Parser)
    ensures P.Run(HandlingsOf(events, parse), 0, P.Empty).raised <==> !P.Quiet(HandlingsOf(events, parse))
    ensures P.Run(HandlingsOf(events, parse), 0, P.Empty).raised <==>
              exists i: nat :: i < |events| && Breaks(events[i], parse)
  {
    hide T.ProcessEvent, P.Run;
    var handlings := HandlingsOf(events, parse);
    assert forall i: nat :: i < |events| ==> handlings[i] == HandlingOf(events[i], parse);
    assert forall i: nat :: i < |events| ==> (handlings[i].Raised? <==> Breaks(events[i], parse));
    hide HandlingsOf, Breaks;
    P.RaisedFrom(handlings, 0, P.Empty);
  }

  lemma NoRowsYet(events: seq<Event>, rows: seq<TokenTransaction>, parse: T.Parser)
    ensures KeptRows(events, 0, parse) + rows == rows
  {
  }

  lemma {:induction false} AllMintsKept(events: seq<Event>, n: nat, parse: T.Parser)
    requires n <= |events| && P.Fits(HandlingsOf(events, parse))
    ensures KeptRows(events, n, parse) == BlockRows(events, n, parse)
  {
    hide HandlingsOf, RowsOf, MintOf, P.Fits;
    if n > 0 {
      AllMintsKept(events, n - 1, parse);
      if n > 1 && MintOf(events[n - 2], parse) != [] {
        DeferralsOf(events, n - 2, parse);
        P.FitsIsAccepted(HandlingsOf(events, parse), n - 2);
        AcceptedIffSlotFree(events, n - 2, parse);
      }
    }
  }

  /** So when every deferral of a block fits, each deferred mint is there, right behind the rows of the next
      event. */
  lemma {:induction false} BlockWrites(events: seq<Event>, parse: T.Parser, ledger: seq<TokenTransaction>)
    requires P.Quiet(HandlingsOf(events, parse)) && P.Fits(HandlingsOf(events, parse))
    ensures var r := P.Run(HandlingsOf(events, parse), 0, P.Empty);
            var balances := Index(ledger + RowsOfTrace(r.trace, events, parse));
            var after := ledger + BlockRows(events, |events|, parse);
            && !r.raised
            && RowsOfTrace(r.trace, events, parse) == BlockRows(events, |events|, parse)
            && forall k: Key ::
                 && (k in balances <==> k.address != "" && LedgerBalance(after, k) != ZERO)
                 && (k in balances ==> balances[k] == LedgerBalance(after, k))
  {
    hide RowsOfTrace, P.Run, HandlingsOf, P.Quiet, P.Fits, KeptRows, BlockRows, Index, LedgerBalance;
    QuietBlockWrites(events, parse, ledger);
    AllMintsKept(events, |events|, parse);
  }

  lemma BalancesOf(ledger: seq<TokenTransaction>)
    ensures forall k: Key ::
              && (k in Index(ledger) <==> k.address != "" && LedgerBalance(ledger, k) != ZERO)
              && (k in Index(ledger) ==> Index(ledger)[k] == LedgerBalance(ledger, k))
  {
    hide Index, LedgerBalance;
    forall k: Key
      ensures k in Index(ledger) <==> k.address != "" && LedgerBalance(ledger, k) != ZERO
      ensures k in Index(ledger) ==> Index(ledger)[k] == LedgerBalance(ledger, k)
    {
      IndexIsLedgerFold(ledger, k);
    }
  }

  /** Two blocks that lose a mint without an error: one in the last event, and one directly behind a lone
      entity mint. Only the event's other rows are there. */
  lemma LostMints(mint: Event, parse: T.Parser)
    requires mint.TokenEvent? && T.ProcessEvent(mint.attributes, parse).ending.Deferred?
    ensures |MintOf(mint, parse)| == 1
    ensures var last := [mint];
            var r := P.Run(HandlingsOf(last, parse), 0, P.Empty);
            !r.raised && RowsOfTrace(r.trace, last, parse) == RowsOf(mint, parse)
    ensures var shadowed := [EntityMint, mint, OtherEvent(false)];
            var r := P.Run(HandlingsOf(shadowed, parse), 0, P.Empty);
            !r.raised && P.Ran(0) in r.trace && RowsOfTrace(r.trace, shadowed, parse) == RowsOf(mint, parse)
  {
    LastMint(mint, parse);
    ShadowedMint(mint, parse);
  }

  lemma LastMint(mint: Event, parse: T.Parser)
    requires mint.TokenEvent? && T.ProcessEvent(mint.attributes, parse).ending.Deferred?
    ensures var last := [mint];
            var r := P.Run(HandlingsOf(last, parse), 0, P.Empty);
            !r.raised && RowsOfTrace(r.trace, last, parse) == RowsOf(mint, parse)
  {
    hide T.ProcessEvent;
    var handlings := HandlingsOf([mint], parse);
    assert P.Run(handlings, 0, P.Empty) == P.Then([P.Handled(0)], P.Run(handlings, 1, P.Pending(0, 1, false)));
    assert [P.Handled(0)] + [] == [P.Handled(0)];
    RowsOfOne(P.Handled(0), [mint], parse);
  }

  lemma ShadowedMint(mint: Event, parse: T.Parser)
    requires mint.TokenEvent? && T.ProcessEvent(mint.attributes, parse).ending.Deferred?
    ensures var shadowed := [EntityMint, mint, OtherEvent(false)];
            var r := P.Run(HandlingsOf(shadowed, parse), 0, P.Empty);
            !r.raised && P.Ran(0) in r.trace && RowsOfTrace(r.trace, shadowed, parse) == RowsOf(mint, parse)
  {
    hide T.ProcessEvent;
    var events := [EntityMint, mint, OtherEvent(false)];
    var shadowed := HandlingsOf(events, parse);
    var slot := P.Pending(0, 2, false);
    assert P.Run(shadowed, 3, P.Empty).trace == [];
    assert P.Run(shadowed, 2, slot.(skip := 1)) == P.Then([P.Handled(2), P.Ran(0)], P.Run(shadowed, 3, P.Empty));
    assert P.Run(shadowed, 1, slot) == P.Then([P.Handled(1)], P.Run(shadowed, 2, slot.(skip := 1)));
    assert P.Run(shadowed, 0, P.Empty) == P.Then([P.Handled(0)], P.Run(shadowed, 1, slot));
    var trace := P.Run(shadowed, 0, P.Empty).trace;
    assert trace == [P.Handled(0)] + [P.Handled(1)] + [P.Handled(2)] + [P.Ran(0)];
    assert P.Ran(0) in trace;
    RowsConcat([P.Handled(0)] + [P.Handled(1)] + [P.Handled(2)], [P.Ran(0)], events, parse);
    RowsConcat([P.Handled(0)] + [P.Handled(1)], [P.Handled(2)], events, parse);
    RowsConcat([P.Handled(0)], [P.Handled(1)], events, parse);
    RowsOfOne(P.Handled(0), events, parse);
    RowsOfOne(P.Handled(1), events, parse);
    RowsOfOne(P.Handled(2), events, parse);
    RowsOfOne(P.Ran(0), events, parse);
    hide RowsOfTrace, P.Run, HandlingsOf;
  }

  // -------------------------------------------------------------------------
  // The loop on the tables
  // -------------------------------------------------------------------------

  // Handles one event; the rows of an event that raises are rolled back with the block.
  method HandleEvent(e: Event, tables: TokenTables, parse: T.Parser)
    returns (handling: P.Handling, mint: seq<TokenTransaction>)
    requires tables.Valid()
    modifies tables
    ensures tables.Valid() && handling == HandlingOf(e, parse)
    ensures handling.Returned? ==>
              tables.ledger == old(tables.ledger) + RowsOf(e, parse) && mint == MintOf(e, parse)
  {
    hide T.ProcessEvent;
    mint := [];
    assert tables.ledger + [] == tables.ledger;
    match e {
      case TokenEvent(attributes) =>
        var event := new WasmEvent(attributes);
        var ending := T.SyncTokenEvent(event, tables, parse);
        match ending {
          case Finished =>
            handling := P.Returned(None);
          case Deferred(t) =>
            handling, mint := P.Returned(Some(P.Deferral(1, false))), [t];
          case Failed =>
            handling := P.Raised;
        }
      case EntityMint =>
        handling := P.Returned(Some(P.Deferral(2, false)));
      case OtherEvent(fails) =>
        handling := if fails then P.Raised else P.Returned(None);
    }
  }

  // Runs a delayed function: a token mint is written, an owner update leaves the ledger alone.
  method RunDelayed(mint: seq<TokenTransaction>, tables: TokenTables)
    requires tables.Valid() && |mint| <= 1
    modifies tables
    ensures tables.Valid() && tables.ledger == old(tables.ledger) + mint
  {
    assert tables.ledger + [] == tables.ledger;
    if |mint| == 1 {
      tables.CreateTokenTransaction(mint[0]);
      assert mint == [mint[0]];
    } else {
      assert mint == [];
    }
  }

  function LedgerAfter(ledger: seq<TokenTransaction>, trace: seq<P.Action>, events: seq<Event>, parse: T.Parser)
    : seq<TokenTransaction>
  {
    ledger + RowsOfTrace(trace, events, parse)
  }

  // One turn of the loop: the event, then the delayed function whose turn it is.
  method Turn(events: seq<Event>, i: nat, slot: P.Slot, waiting: seq<TokenTransaction>, tables: TokenTables,
              parse: T.Parser, ghost trace: seq<P.Action>, ghost ledger: seq<TokenTransaction>)
    returns (handling: P.Handling, mint: seq<TokenTransaction>)
    requires tables.Valid() && tables.ledger == LedgerAfter(ledger, trace, events, parse) && i < |events|
    requires slot.Pending? ==> slot.event < i && waiting == MintOf(events[slot.event], parse)
    modifies tables
    ensures tables.Valid() && handling == HandlingOf(events[i], parse)
    ensures handling.Returned? ==>
              mint == MintOf(events[i], parse)
              && tables.ledger == LedgerAfter(ledger, trace + P.Here(i, slot), events, parse)
  {
    hide HandlingOf, MintOf, RowsOf, RowsOfTrace, tables.Valid, P.Here;
    AtMostOneMint(events, i, slot, parse);
    RowsHere(events, i, slot, trace, ledger, parse);
    handling, mint := HandleEvent(events[i], tables, parse);
    if handling.Returned? && P.IsDue(slot) {
      RunDelayed(waiting, tables);
    }
  }

  method SyncBlockEvents(events: seq<Event>, tables: TokenTables, parse: T.Parser) returns (raised: bool)
    requires tables.Valid()
    modifies tables
    ensures tables.Valid()
    ensures var r := P.Run(HandlingsOf(events, parse), 0, P.Empty);
            && raised == r.raised
            && (!raised ==> tables.ledger == old(tables.ledger) + RowsOfTrace(r.trace, events, parse))
    ensures !raised ==> tables.ledger == old(tables.ledger) + KeptRows(events, |events|, parse)
  {
    hide KeptRows, HandlingsOf, HandlingOf, MintOf, LedgerAfter, RowsOfTrace, tables.Valid;
    hide P.Run, P.Then, P.Here, P.IsDue;
    ghost var ledger, handlings := tables.ledger, HandlingsOf(events, parse);
    ghost var trace: seq<P.Action> := [];
    var slot, waiting: seq<TokenTransaction> := P.Empty, [];
    RunStarts(ledger, events, parse);
    for i := 0 to |events|
      invariant tables.Valid()
      invariant tables.ledger == LedgerAfter(ledger, trace, events, parse)
      invariant P.Run(handlings, 0, P.Empty) == P.Then(trace, P.Run(handlings, i, slot))
      invariant slot.Pending? ==> slot.event < i && !slot.fails && waiting == MintOf(events[slot.event], parse)
    {
      LoopStep(events, i, slot, trace, parse);
      var handling, mint := Turn(events, i, slot, waiting, tables, parse, trace, ledger);
      if handling.Raised? {
        return true;
      }
      trace := trace + P.Here(i, slot);
      if slot.Pending? && slot.skip != 1 {
        slot := slot.(skip := slot.skip - 1);
      } else {
        slot, waiting := P.SlotOf(i, handling), mint;
      }
    }
    RunEnds(handlings, slot, trace);
    LedgerAfterIs(ledger, trace, events, parse);
    TraceIsKept(events, parse);
    raised := false;
  }

  lemma TraceIsKept(events: seq<Event>, parse: T.Parser)
    ensures var r := P.Run(HandlingsOf(events, parse), 0, P.Empty);
            !r.raised ==> RowsOfTrace(r.trace, events, parse) == KeptRows(events, |events|, parse)
  {
    hide RowsOfTrace, KeptRows, P.Run, HandlingsOf, P.Quiet;
    RaisesIffNotQuiet(events, parse);
    if P.Quiet(HandlingsOf(events, parse)) {
      QuietBlockWrites(events, parse, []);
    }
  }

  lemma RunStarts(ledger: seq<TokenTransaction>, events: seq<Event>, parse: T.Parser)
    ensures var r := P.Run(HandlingsOf(events, parse), 0, P.Empty);
            ledger == LedgerAfter(ledger, [], events, parse) && r == P.Then([], r)
  {
    NoRows(events, parse);
    hide HandlingsOf, P.Run;
    var r := P.Run(HandlingsOf(events, parse), 0, P.Empty);
    assert [] + r.trace == r.trace;
  }

  lemma LedgerAfterIs(ledger: seq<TokenTransaction>, trace: seq<P.Action>, events: seq<Event>, parse: T.Parser)
    ensures LedgerAfter(ledger, trace, events, parse) == ledger + RowsOfTrace(trace, events, parse)
  {
  }

  lemma RunEnds(handlings: seq<P.Handling>, slot: P.Slot, trace: seq<P.Action>)
    ensures P.Then(trace, P.Run(handlings, |handlings|, slot)) == P.Outcome(trace, false)
  {
    assert trace + [] == trace;
  }

  lemma LoopStep(events: seq<Event>, i: nat, slot: P.Slot, trace: seq<P.Action>, parse: T.Parser)
    requires i < |events| && (slot.Pending? ==> !slot.fails)
    ensures var handlings := HandlingsOf(events, parse);
            && handlings[i] == HandlingOf(events[i], parse)
            && if handlings[i].Raised? then P.Then(trace, P.Run(handlings, i, slot)).raised
               else P.Then(trace, P.Run(handlings, i, slot)) ==
                    P.Then(trace + P.Here(i, slot), P.Run(handlings, i + 1, P.NextSlot(handlings, i, slot)))
    ensures HandlingOf(events[i], parse).Returned? && HandlingOf(events[i], parse).deferral.Some? ==>
              !HandlingOf(events[i], parse).deferral.value.fails
  {
    RunUnfolds(events, i, slot, parse);
    var handlings := HandlingsOf(events, parse);
    hide P.Run, HandlingOf, HandlingsOf, P.NextSlot, P.Here;
    if handlings[i].Returned? {
      P.ThenThen(trace, P.Here(i, slot), P.Run(handlings, i + 1, P.NextSlot(handlings, i, slot)));
    }
  }

  lemma RunUnfolds(events: seq<Event>, i: nat, slot: P.Slot, parse: T.Parser)
    requires i < |events| && (slot.Pending? ==> !slot.fails)
    ensures var handlings := HandlingsOf(events, parse);
            && handlings[i] == HandlingOf(events[i], parse)
            && P.Run(handlings, i, slot) ==
               if handlings[i].Raised? then P.Outcome([], true)
               else P.Then(P.Here(i, slot), P.Run(handlings, i + 1, P.NextSlot(handlings, i, slot)))
    ensures HandlingOf(events[i], parse).Returned? && HandlingOf(events[i], parse).deferral.Some? ==>
              !HandlingOf(events[i], parse).deferral.value.fails
  {
    hide T.ProcessEvent;
  }

  lemma AtMostOneMint(events: seq<Event>, i: nat, slot: P.Slot, parse: T.Parser)
    requires i < |events| && (slot.Pending? ==> slot.event < i)
    ensures slot.Pending? ==> |MintOf(events[slot.event], parse)| <= 1
  {
    hide T.ProcessEvent;
  }

  lemma RowsHere(events: seq<Event>, i: nat, slot: P.Slot, trace: seq<P.Action>, ledger: seq<TokenTransaction>,
                 parse: T.Parser)
    requires i < |events| && (slot.Pending? ==> slot.event < i)
    ensures var before := ledger + RowsOfTrace(trace, events, parse) + RowsOf(events[i], parse);
            ledger + RowsOfTrace(trace + P.Here(i, slot), events, parse) ==
            if P.IsDue(slot) then before + MintOf(events[slot.event], parse) else before
  {
    hide RowsOf, MintOf, RowsOfTrace;
    RowsConcat(trace, P.Here(i, slot), events, parse);
    RowsOfHere(events, i, slot, parse);
  }
}
