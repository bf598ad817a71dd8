/** Staker rows and totals over whole runs of handler events and snapshot passes. */
module DaoRuns {
  import opened Wrappers
  import opened DaoStaking
  import opened DaoTotals

  ghost function RunSteps(t: Tables, steps: seq<Step>): Option<Tables> {
    if steps == [] then Some(t)
    else
      match RunSteps(t, steps[..|steps| - 1])
      case None => None
      case Some(before) => Apply(before, steps[|steps| - 1])
  }

  // Every step of the run meets P where it happens.
  ghost predicate Throughout(t: Tables, steps: seq<Step>, P: (Tables, Step) -> bool) {
    steps != [] ==>
      && Throughout(t, steps[..|steps| - 1], P)
      && (var before := RunSteps(t, steps[..|steps| - 1]);
          before.Some? ==> P(before.value, steps[|steps| - 1]))
  }

  ghost predicate SentAndHarmless(t: Tables, step: Step) {
    WellSent(t, step) && Harmless(t, step)
  }

  /** From empty tables, after any run of committed steps none of which is harmful, every voting
      module's total is the sum, or the number, of its member rows. */
  lemma {:induction false} RunSettles(steps: seq<Step>)
    requires RunSteps(NoRows, steps).Some? && Throughout(NoRows, steps, SentAndHarmless)
    ensures Typed(RunSteps(NoRows, steps).value) && Settled(RunSteps(NoRows, steps).value)
  {
    if steps != [] {
      RunSettles(steps[..|steps| - 1]);
      hide Apply, Settled, Typed, Harmless, WellSent;
      StepSettles(RunSteps(NoRows, steps[..|steps| - 1]).value, steps[|steps| - 1]);
    }
  }

  lemma RunMore(t: Tables, steps: seq<Step>, step: Step)
    requires RunSteps(t, steps).Some?
    ensures RunSteps(t, steps + [step]) == Apply(RunSteps(t, steps).value, step)
  {
    assert (steps + [step])[..|steps|] == steps;
  }

  /** Two of the harmful steps at work: a staking link abandoned half way leaves the module at 0 beside a
      stake of 5, and a group whose last member left is at 0 beside the row it keeps. */
  lemma AbandonedLink()
    ensures var t := RunSteps(NoRows, [Create("module", Cw20Staked, None, None)]
                                      + [Stake(Cw20Book, "staking", "ann", 5)]
                                      + [LinkStaking("module", "staking", false)]);
            t.Some? && "module" in t.value.modules && !Right(t.value, "module")
  {
    var a, b := Create("module", Cw20Staked, None, None), Stake(Cw20Book, "staking", "ann", 5);
    RunMore(NoRows, [], a);
    RunMore(NoRows, [a], b);
    RunMore(NoRows, [a] + [b], LinkStaking("module", "staking", false));
    assert [] + [a] == [a];
    SumOfPut(map[], "staking", "ann", 5);
    hide RunSteps;
  }

  lemma EmptiedGroup()
    ensures var t := RunSteps(NoRows, [Create("module", Cw4, None, Some("group"))]
                                      + [UpdateMembers("group", [("ann", 1)])]
                                      + [UpdateMembers("group", [])]);
            t.Some? && "module" in t.value.modules && !Right(t.value, "module")
  {
    var a, b := Create("module", Cw4, None, Some("group")), UpdateMembers("group", [("ann", 1)]);
    RunMore(NoRows, [], a);
    RunMore(NoRows, [a], b);
    RunMore(NoRows, [a] + [b], UpdateMembers("group", []));
    assert [] + [a] == [a];
    assert [("ann", 1)][..0] == [] && Without(map[], "group") == map[];
    SumOfPut(map[], "group", "ann", 1);
    hide RunSteps;
  }

  // -------------------------------------------------------------------------
  // Staker rows
  // -------------------------------------------------------------------------

  // What the chain guarantees of amounts: they are positive, and nobody unstakes more than the stake.
  predicate Lawful(t: Tables, step: Step) {
    match step
    case Stake(_, _, _, amount) => amount > 0
    case Unstake(book, owner, staker, amount) => 0 < amount <= Amount(RowsOf(t, book), owner, staker)
    case SnapshotStakers(_, _, listing) => forall i :: 0 <= i < |listing| ==> listing[i].1 > 0
    case _ => true
  }

  predicate Positive(rows: Rows) {
    forall k :: k in rows ==> rows[k] > 0
  }

  lemma {:induction false} UpsertAllPositive(rows: Rows, owner: string, listing: Listing)
    requires Positive(rows) && forall i :: 0 <= i < |listing| ==> listing[i].1 > 0
    ensures Positive(UpsertAll(rows, owner, listing))
  {
    if listing != [] {
      UpsertAllPositive(rows, owner, listing[..|listing| - 1]);
    }
  }

  lemma PositiveStep(t: Tables, step: Step)
    requires Positive(t.cw20) && Positive(t.native) && Lawful(t, step) && Apply(t, step).Some?
    ensures Positive(Apply(t, step).value.cw20) && Positive(Apply(t, step).value.native)
  {
    hide SetTotals, SetTotal, SetGroupTotals, SumOf, UpsertAll, NftsOf, NftRows, Requery, ReplaceMembers;
    match step {
      case Stake(_, _, _, _) =>
      case Unstake(_, _, _, _) =>
      case SnapshotStakers(book, owner, listing) =>
        UpsertAllPositive(RowsOf(t, book), owner, listing);
      case _ =>
        OtherTables(t, step);
        hide Apply;
    }
  }

  lemma OtherTables(t: Tables, step: Step)
    requires Apply(t, step).Some? && !step.Stake? && !step.Unstake? && !step.SnapshotStakers?
    ensures Apply(t, step).value.cw20 == t.cw20 && Apply(t, step).value.native == t.native
  {
    hide SetTotals, SetTotal, SetGroupTotals, SumOf, UpsertAll, NftsOf, NftRows;
  }

  /** Under those guarantees no staker row is ever zero or negative. */
  lemma {:induction false} NoZeroRows(steps: seq<Step>)
    requires RunSteps(NoRows, steps).Some? && Throughout(NoRows, steps, Lawful)
    ensures Positive(RunSteps(NoRows, steps).value.cw20) && Positive(RunSteps(NoRows, steps).value.native)
  {
    if steps != [] {
      NoZeroRows(steps[..|steps| - 1]);
      hide Lawful, Apply, Positive;
      PositiveStep(RunSteps(NoRows, steps[..|steps| - 1]).value, steps[|steps| - 1]);
    }
  }

  function Listed(listing: Listing, staker: string, otherwise: int): int {
    if listing == [] then otherwise
    else if listing[|listing| - 1].0 == staker then listing[|listing| - 1].1
    else Listed(listing[..|listing| - 1], staker, otherwise)
  }

  // The reference: one staker's stakes minus unstakes, from the last snapshot that lists them.
  function Net(steps: seq<Step>, book: Book, owner: string, staker: string): int {
    if steps == [] then 0
    else NetStep(Net(steps[..|steps| - 1], book, owner, staker), steps[|steps| - 1], book, owner, staker)
  }

  function NetStep(before: int, step: Step, book: Book, owner: string, staker: string): int {
    match step
    case Stake(b, o, s, amount) => if b == book && o == owner && s == staker then before + amount else before
    case Unstake(b, o, s, amount) => if b == book && o == owner && s == staker then before - amount else before
    case SnapshotStakers(b, o, listing) => if b == book && o == owner then Listed(listing, staker, before) else before
    case _ => before
  }

  lemma {:induction false} AmountAfterListing(rows: Rows, owner: string, listing: Listing, o: string, staker: string)
    ensures Amount(UpsertAll(rows, owner, listing), o, staker) ==
            if o == owner then Listed(listing, staker, Amount(rows, o, staker)) else Amount(rows, o, staker)
  {
    if listing != [] {
      AmountAfterListing(rows, owner, listing[..|listing| - 1], o, staker);
    }
  }

  lemma RowFollowsStep(t: Tables, step: Step, book: Book, owner: string, staker: string)
    requires Apply(t, step).Some?
    ensures Amount(RowsOf(Apply(t, step).value, book), owner, staker) ==
            NetStep(Amount(RowsOf(t, book), owner, staker), step, book, owner, staker)
  {
    hide SetTotals, SetTotal, SetGroupTotals, SumOf, NftsOf, NftRows, Requery, ReplaceMembers;
    match step {
      case Stake(b, o, s, amount) =>
        DepositFollowsNet(t, b, o, s, amount, book, owner, staker);
        hide Deposit;
      case Unstake(b, o, s, amount) =>
        WithdrawalFollowsNet(t, b, o, s, amount, book, owner, staker);
        hide Withdrawal;
      case SnapshotStakers(b, o, listing) =>
        AmountAfterListing(RowsOf(t, b), o, listing, owner, staker);
      case _ =>
        OtherTables(t, step);
        hide Apply;
    }
  }

  lemma DepositFollowsNet(t: Tables, b: Book, o: string, s: string, amount: int,
                          book: Book, owner: string, staker: string)
    requires Deposit(t, b, o, s, amount).Some?
    ensures Amount(RowsOf(Deposit(t, b, o, s, amount).value, book), owner, staker) ==
            Amount(RowsOf(t, book), owner, staker) + if b == book && o == owner && s == staker then amount else 0
  {
    hide SetTotals, SetTotal, SumOf;
  }

  lemma WithdrawalFollowsNet(t: Tables, b: Book, o: string, s: string, amount: int,
                             book: Book, owner: string, staker: string)
    requires Withdrawal(t, b, o, s, amount).Some?
    ensures Amount(RowsOf(Withdrawal(t, b, o, s, amount).value, book), owner, staker) ==
            Amount(RowsOf(t, book), owner, staker) - if b == book && o == owner && s == staker then amount else 0
  {
    hide SetTotals, SetTotal, SumOf, Withdraw;
    AmountAfterWithdraw(RowsOf(t, b), o, s, amount, owner, staker);
  }

  lemma AmountAfterWithdraw(rows: Rows, owner: string, staker: string, amount: int, o: string, s: string)
    ensures Amount(Withdraw(rows, owner, staker, amount), o, s) ==
            Amount(rows, o, s) - if o == owner && s == staker then amount else 0
    ensures Amount(rows, owner, staker) == amount ==> Withdraw(rows, owner, staker, amount) == rows - {(owner, staker)}
  {
  }

  /** A staker's row holds exactly the net of that staker's own events, whatever happens to others; and
      with lawful amounts the row exists exactly while that net is positive. */
  lemma {:induction false} RowsAreNet(steps: seq<Step>, book: Book, owner: string, staker: string)
    requires RunSteps(NoRows, steps).Some?
    ensures var rows := RowsOf(RunSteps(NoRows, steps).value, book);
            && Amount(rows, owner, staker) == Net(steps, book, owner, staker)
            && (Throughout(NoRows, steps, Lawful) ==>
                  ((owner, staker) in rows <==> Net(steps, book, owner, staker) > 0))
  {
    if Throughout(NoRows, steps, Lawful) {
      NoZeroRows(steps);
    }
    hide Throughout, Apply, Lawful, NetStep;
    if steps != [] {
      RowsAreNet(steps[..|steps| - 1], book, owner, staker);
      RowFollowsStep(RunSteps(NoRows, steps[..|steps| - 1]).value, steps[|steps| - 1], book, owner, staker);
    }
  }

  // Events of blocks: no snapshot of this contract among them.
  predicate NoListing(steps: seq<Step>, book: Book, owner: string) {
    forall i :: 0 <= i < |steps| && steps[i].SnapshotStakers? ==> steps[i].book != book || steps[i].owner != owner
  }

  lemma {:induction false} NetConcat(a: seq<Step>, b: seq<Step>, book: Book, owner: string, staker: string)
    requires NoListing(b, book, owner)
    ensures Net(a + b, book, owner, staker) == Net(a, book, owner, staker) + Net(b, book, owner, staker)
  {
    if b == [] {
      assert a + b == a;
    } else {
      var init, last := b[..|b| - 1], b[|b| - 1];
      assert (a + b)[..|a + b| - 1] == a + init && (a + b)[|a + b| - 1] == last;
      assert last.SnapshotStakers? ==> last.book != book || last.owner != owner;
      NetConcat(a, init, book, owner, staker);
    }
  }

  /** The rows against the chain. The snapshot at the cutoff copies the stakes held at the end of that block,
      and the events of the same block are then applied on top. So from there on a row exceeds the chain's
      stake by the net of what the staker moved in the cutoff block: it is right exactly for those whose moves
      net to nothing. */
  lemma RowsMeetChain(before: seq<Step>, listing: Listing, cutoffBlock: seq<Step>, later: seq<Step>,
                      book: Book, owner: string, staker: string, stake: int)
    requires Net(before, book, owner, staker) == 0
    requires NoListing(cutoffBlock, book, owner) && NoListing(later, book, owner)
    requires Listed(listing, staker, 0) == stake + Net(cutoffBlock, book, owner, staker)
    requires RunSteps(NoRows, before + [SnapshotStakers(book, owner, listing)] + cutoffBlock + later).Some?
    ensures var t := RunSteps(NoRows, before + [SnapshotStakers(book, owner, listing)] + cutoffBlock + later).value;
            var moved := Net(cutoffBlock, book, owner, staker);
            var chainStake := stake + moved + Net(later, book, owner, staker);
            && Amount(RowsOf(t, book), owner, staker) == chainStake + moved
            && (Amount(RowsOf(t, book), owner, staker) == chainStake <==> moved == 0)
  {
    hide RunSteps, Throughout, Lawful, RowsOf, Amount, NoListing, Net, Listed;
    var steps := before + [SnapshotStakers(book, owner, listing)] + cutoffBlock + later;
    NetOfAll(before, listing, cutoffBlock, later, book, owner, staker);
    RowsAreNet(steps, book, owner, staker);
    assert Amount(RowsOf(RunSteps(NoRows, steps).value, book), owner, staker) == Net(steps, book, owner, staker);
  }

  lemma NetOfAll(before: seq<Step>, listing: Listing, cutoffBlock: seq<Step>, later: seq<Step>,
                 book: Book, owner: string, staker: string)
    requires Net(before, book, owner, staker) == 0
    requires NoListing(cutoffBlock, book, owner) && NoListing(later, book, owner)
    ensures Net(before + [SnapshotStakers(book, owner, listing)] + cutoffBlock + later, book, owner, staker) ==
            Listed(listing, staker, 0) + Net(cutoffBlock, book, owner, staker) + Net(later, book, owner, staker)
  {
    var copied := before + [SnapshotStakers(book, owner, listing)];
    assert copied[..|copied| - 1] == before && copied[|copied| - 1] == SnapshotStakers(book, owner, listing);
    assert Net(copied, book, owner, staker) == Listed(listing, staker, 0);
    hide Net, NetStep, Listed, NoListing;
    NetConcat(copied + cutoffBlock, later, book, owner, staker);
    NetConcat(copied, cutoffBlock, book, owner, staker);
  }

  // -------------------------------------------------------------------------
  // cw721 rows: re-queried, not computed
  // -------------------------------------------------------------------------

  function TokensOf(nfts: set<Nft>, owner: string, staker: string): set<string> {
    set n | n in nfts && n.owner == owner && n.staker == staker :: n.tokenId
  }

  // One staker's events in one block; every one of them is answered with the set held at the end of it.
  function NftEvents(owner: string, staker: string, unstakes: seq<bool>, held: set<string>): seq<Step> {
    seq(|unstakes|, i requires 0 <= i < |unstakes| => NftEvent(owner, staker, unstakes[i], held))
  }

  lemma OneNftEvent(t: Tables, owner: string, staker: string, unstake: bool, held: set<string>)
    requires Requery(t, owner, staker, unstake, held).Some?
    ensures var after := Requery(t, owner, staker, unstake, held).value.nfts;
            && TokensOf(after, owner, staker) == (if unstake then {} else TokensOf(t.nfts, owner, staker)) + held
            && forall o, s :: (o, s) != (owner, staker) ==> TokensOf(after, o, s) == TokensOf(t.nfts, o, s)
  {
    var after := NftRows(t.nfts, owner, staker, unstake, held);
    assert Requery(t, owner, staker, unstake, held).value.nfts == after;
    hide Requery, NftRows, TokensOf;
    forall o, s
      ensures TokensOf(after, o, s) ==
                if o != owner || s != staker then TokensOf(t.nfts, o, s)
                else (if unstake then {} else TokensOf(t.nfts, o, s)) + held
    {
      TokensAfter(t.nfts, owner, staker, unstake, held, o, s);
    }
  }

  lemma TokensAfter(nfts: set<Nft>, owner: string, staker: string, unstake: bool, held: set<string>,
                    o: string, s: string)
    ensures TokensOf(NftRows(nfts, owner, staker, unstake, held), o, s) ==
              if o != owner || s != staker then TokensOf(nfts, o, s)
              else (if unstake then {} else TokensOf(nfts, o, s)) + held
  {
    hide NftRows, TokensOf;
    forall id
      ensures id in TokensOf(NftRows(nfts, owner, staker, unstake, held), o, s) <==>
                if o != owner || s != staker then id in TokensOf(nfts, o, s)
                else id in held || (!unstake && id in TokensOf(nfts, o, s))
    {
      InTokens(NftRows(nfts, owner, staker, unstake, held), o, s, id);
      InTokens(nfts, o, s, id);
      InNftRows(nfts, owner, staker, unstake, held, Nft(o, s, id));
    }
  }

  lemma InNftRows(nfts: set<Nft>, owner: string, staker: string, unstake: bool, held: set<string>, n: Nft)
    ensures n in NftRows(nfts, owner, staker, unstake, held) <==>
              if n.owner == owner && n.staker == staker then n.tokenId in held || (!unstake && n in nfts) else n in nfts
  {
    assert n.owner == owner && n.staker == staker ==> n == Nft(owner, staker, n.tokenId);
  }

  lemma InTokens(nfts: set<Nft>, owner: string, staker: string, id: string)
    ensures id in TokensOf(nfts, owner, staker) <==> Nft(owner, staker, id) in nfts
  {
    if id in TokensOf(nfts, owner, staker) {
      var n :| n in nfts && n.owner == owner && n.staker == staker && n.tokenId == id;
      assert n == Nft(owner, staker, id);
    }
    if Nft(owner, staker, id) in nfts {
      assert Nft(owner, staker, id).tokenId == id;
    }
  }

  /** cw721 rows heal themselves: after any non-empty series of a staker's events in a block the rows
      are the set held at its end exactly when one of them was an unstake or no stale row was there
      before. Other stakers keep their rows. */
  lemma {:induction false} SelfHeal(t: Tables, owner: string, staker: string, unstakes: seq<bool>, held: set<string>)
    requires unstakes != [] && RunSteps(t, NftEvents(owner, staker, unstakes, held)).Some?
    ensures var after := RunSteps(t, NftEvents(owner, staker, unstakes, held)).value.nfts;
            && (TokensOf(after, owner, staker) == held
                <==> true in unstakes || TokensOf(t.nfts, owner, staker) <= held)
            && held <= TokensOf(after, owner, staker)
            && (true !in unstakes ==> TokensOf(after, owner, staker) == TokensOf(t.nfts, owner, staker) + held)
            && forall o, s :: (o, s) != (owner, staker) ==> TokensOf(after, o, s) == TokensOf(t.nfts, o, s)
    decreases |unstakes|
  {
    var init, last := unstakes[..|unstakes| - 1], unstakes[|unstakes| - 1];
    var steps := NftEvents(owner, staker, unstakes, held);
    assert steps[..|steps| - 1] == NftEvents(owner, staker, init, held);
    var before := RunSteps(t, NftEvents(owner, staker, init, held)).value;
    OneNftEvent(before, owner, staker, last, held);
    assert unstakes == init + [last];
    hide TokensOf, Requery, NftEvents;
    if init != [] {
      SelfHeal(t, owner, staker, init, held);
    } else {
      assert NftEvents(owner, staker, init, held) == [];
    }
  }

  datatype NftMove = StakeNfts(ids: set<string>) | UnstakeNfts(ids: set<string>)

  // What the contract holds for the staker after a block of moves.
  function HeldAfter(held: set<string>, moves: seq<NftMove>): set<string> {
    if moves == [] then held else
      var before := HeldAfter(held, moves[..|moves| - 1]);
      match moves[|moves| - 1]
      case StakeNfts(ids) => before + ids
      case UnstakeNfts(ids) => before - ids
  }

  function Unstakes(moves: seq<NftMove>): seq<bool> {
    seq(|moves|, i requires 0 <= i < |moves| => moves[i].UnstakeNfts?)
  }

  lemma {:induction false} OnlyGrows(held: set<string>, moves: seq<NftMove>)
    requires true !in Unstakes(moves)
    ensures held <= HeldAfter(held, moves)
  {
    if moves != [] {
      var init := moves[..|moves| - 1];
      assert Unstakes(moves) == Unstakes(init) + [moves[|moves| - 1].UnstakeNfts?];
      OnlyGrows(held, init);
    }
  }

  /** So if a staker's rows are among the tokens the contract held for them before a block, then after
      any of their moves in it the rows are exactly the tokens it holds at the end. */
  lemma RowsCatchUp(t: Tables, owner: string, staker: string, held: set<string>, moves: seq<NftMove>)
    requires TokensOf(t.nfts, owner, staker) <= held && moves != []
    requires RunSteps(t, NftEvents(owner, staker, Unstakes(moves), HeldAfter(held, moves))).Some?
    ensures var after := RunSteps(t, NftEvents(owner, staker, Unstakes(moves), HeldAfter(held, moves))).value;
            TokensOf(after.nfts, owner, staker) == HeldAfter(held, moves)
  {
    if true !in Unstakes(moves) {
      OnlyGrows(held, moves);
    }
    SelfHeal(t, owner, staker, Unstakes(moves), HeldAfter(held, moves));
    hide TokensOf, NftEvents, RunSteps;
  }
}
