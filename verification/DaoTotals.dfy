/** When cached voting weights agree with the member rows, step by step and over whole runs. */
module DaoTotals {
  import opened Wrappers
  import opened Sums
  import opened DaoStaking

  // -------------------------------------------------------------------------
  // What it means for a voting module's total to be right
  // -------------------------------------------------------------------------

  ghost predicate Right(t: Tables, m: string)
    requires m in t.modules
  {
    var v := t.modules[m];
    && (v.stakingContract.Some? ==> v.totalWeight == SumOf(t.cw20, v.stakingContract.value))
    && (v.group.Some? ==> v.totalWeight == SumOf(t.members, v.group.value))
    && (v.kind.NativeStaked? ==> v.totalWeight == SumOf(t.native, m))
    && (v.kind.Cw721Staked? ==> v.totalWeight == |NftsOf(t.nfts, m)|)
  }

  ghost predicate Settled(t: Tables) {
    forall m :: m in t.modules ==> Right(t, m)
  }

  predicate Typed(t: Tables) {
    && (forall m :: m in t.modules ==>
          && (t.modules[m].stakingContract.Some? ==> t.modules[m].kind.Cw20Staked?)
          && (t.modules[m].group.Some? ==> t.modules[m].kind.Cw4?))
    && (forall k :: k in t.native ==> k.0 in t.modules)
    && (forall n :: n in t.nfts ==> n.owner in t.modules)
  }

  predicate KindIs(t: Tables, m: string, kind: Kind) {
    m in t.modules ==> t.modules[m].kind == kind
  }

  // Handlers are chosen by contract type, only cw20 modules announce a staking contract and only cw4
  // modules a group; listings are read page by page in ascending order and do not repeat an account.
  predicate WellSent(t: Tables, step: Step) {
    match step
    case Stake(book, owner, _, _) => book.NativeBook? ==> KindIs(t, owner, NativeStaked)
    case Unstake(book, owner, _, _) => book.NativeBook? ==> KindIs(t, owner, NativeStaked)
    case NftEvent(owner, _, _, _) => KindIs(t, owner, Cw721Staked)
    case InstantiateGroup(_, _) => true
    case UpdateMembers(_, _) => true
    case Create(_, kind, contract, group) =>
      (contract.Some? ==> kind.Cw20Staked?) && (group.Some? ==> kind.Cw4?)
    case LinkStaking(address, _, _) => KindIs(t, address, Cw20Staked)
    case LinkGroup(address, _) => KindIs(t, address, Cw4)
    case SnapshotStakers(book, owner, listing) =>
      Distinct(listing) && (book.NativeBook? ==> KindIs(t, owner, NativeStaked))
    case SnapshotMembers(_, _) => true
  }

  predicate Linked(t: Tables, contract: string) {
    exists m :: m in t.modules && t.modules[m].stakingContract == Some(contract)
  }

  predicate Joined(t: Tables, group: string) {
    exists m :: m in t.modules && t.modules[m].group == Some(group)
  }

  // The five ways a total can be left wrong, read off before the step.
  ghost predicate Harmless(t: Tables, step: Step) {
    match step
    // a group filled after a module has joined it
    case InstantiateGroup(group, listing) =>
      listing != [] && Joined(t, group) ==> ListTotal(listing) == SumOf(t.members, group)
    // a group that lost its last member keeps its rows
    case UpdateMembers(group, listing) => listing == [] && Joined(t, group) ==> SumOf(t.members, group) == 0
    // a module created already linked starts at 0
    case Create(address, _, contract, group) =>
      address in t.modules
      || ((contract.Some? ==> SumOf(t.cw20, contract.value) == 0)
          && (group.Some? ==> SumOf(t.members, group.value) == 0))
    // a link abandoned half way has no total yet
    case LinkStaking(address, contract, readable) =>
      readable || address !in t.modules || t.modules[address].totalWeight == SumOf(t.cw20, contract)
    // a snapshot does not clear rows it does not list
    case SnapshotStakers(book, owner, listing) =>
      listing != [] && (book.Cw20Book? ==> Linked(t, owner)) ==> Sum(Unlisted(RowsOf(t, book), owner, listing)) == 0
    case _ => true
  }

  // -------------------------------------------------------------------------
  // One lemma for each kind of total
  // -------------------------------------------------------------------------

  lemma ResetTotals(t: Tables, after: Tables, contract: string, total: int)
    requires Typed(t)
    requires forall m :: m in t.modules && t.modules[m].stakingContract != Some(contract) ==> Right(t, m)
    requires after == t.(cw20 := after.cw20, modules := SetTotals(t.modules, contract, total))
    requires forall o :: o != contract ==> Owned(after.cw20, o) == Owned(t.cw20, o)
    ensures Typed(after)
    ensures Settled(after) <==> (Linked(t, contract) ==> total == SumOf(after.cw20, contract))
  {
    forall m | m in after.modules
      ensures Right(after, m) <==> (t.modules[m].stakingContract == Some(contract) ==>
                                      total == SumOf(after.cw20, contract))
    {
      hide Sum, NftsOf;
      if t.modules[m].stakingContract != Some(contract) {
        assert Right(t, m);
      }
    }
  }

  lemma ResetGroupTotals(t: Tables, after: Tables, group: string, total: int)
    requires Typed(t) && Settled(t)
    requires after == t.(members := after.members, modules := SetGroupTotals(t.modules, group, total))
    requires forall o :: o != group ==> Owned(after.members, o) == Owned(t.members, o)
    ensures Typed(after)
    ensures Settled(after) <==> (Joined(t, group) ==> total == SumOf(after.members, group))
  {
    forall m | m in after.modules
      ensures Right(after, m) <==> (t.modules[m].group == Some(group) ==> total == SumOf(after.members, group))
    {
      hide Sum, NftsOf;
      assert Right(t, m);
    }
  }

  // One module, of a kind that keeps its own rows, gets a new total.
  lemma ResetOwnTotal(t: Tables, after: Tables, m: string)
    requires Typed(t) && Settled(t) && m in t.modules
    requires after == t.(native := after.native, nfts := after.nfts, modules := after.modules)
    requires m in after.modules
    requires after.modules == t.modules[m := t.modules[m].(totalWeight := after.modules[m].totalWeight)]
    requires t.modules[m].kind.NativeStaked? || t.modules[m].kind.Cw721Staked?
    requires forall o :: o != m ==> Owned(after.native, o) == Owned(t.native, o)
                                    && NftsOf(after.nfts, o) == NftsOf(t.nfts, o)
    ensures Settled(after) <==> Right(after, m)
  {
    forall o | o in after.modules && o != m
      ensures Right(after, o)
    {
      hide Sum, NftsOf;
      assert Right(t, o);
    }
  }

  lemma NftRowsFrame(nfts: set<Nft>, owner: string, staker: string, unstake: bool, held: set<string>)
    ensures forall o :: o != owner ==> NftsOf(NftRows(nfts, owner, staker, unstake, held), o) == NftsOf(nfts, o)
  {
  }

  lemma CreateSettles(t: Tables, address: string, kind: Kind, contract: Option<string>, group: Option<string>)
    requires Typed(t) && Settled(t) && WellSent(t, Create(address, kind, contract, group))
    ensures var after := Apply(t, Create(address, kind, contract, group)).value;
            Typed(after) && (Settled(after) <==> Harmless(t, Create(address, kind, contract, group)))
  {
    if address !in t.modules {
      var after := t.(modules := t.modules[address := VotingModule(kind, contract, group, 0)]);
      assert Owned(t.native, address) == map[] && NftsOf(t.nfts, address) == {};
      assert Right(after, address) <==> Harmless(t, Create(address, kind, contract, group));
      forall m | m in after.modules && m != address
        ensures Right(after, m)
      {
        assert Right(t, m);
      }
    }
  }

  lemma JoinSettles(t: Tables, address: string, group: string)
    requires Typed(t) && Settled(t) && WellSent(t, LinkGroup(address, group))
    ensures Typed(JoinGroup(t, address, group)) && Settled(JoinGroup(t, address, group))
  {
    var after := JoinGroup(t, address, group);
    forall m | m in after.modules
      ensures Right(after, m)
    {
      if m != address {
        assert Right(t, m);
      }
    }
  }

  lemma LinkSettles(t: Tables, address: string, contract: string, readable: bool)
    requires Typed(t) && Settled(t) && WellSent(t, LinkStaking(address, contract, readable))
    ensures var after := Link(t, address, contract, readable);
            Typed(after) && (Settled(after) <==> Harmless(t, LinkStaking(address, contract, readable)))
  {
    var linked := Link(t, address, contract, false);
    forall m | m in linked.modules && m != address
      ensures Right(linked, m)
    {
      assert Right(t, m);
    }
    assert Typed(linked);
    if readable {
      ResetTotals(linked, Link(t, address, contract, true), contract, SumOf(t.cw20, contract));
    } else if address in t.modules {
      assert Right(linked, address) <==> Harmless(t, LinkStaking(address, contract, readable));
    }
  }

  lemma DepositSettles(t: Tables, book: Book, owner: string, staker: string, amount: int)
    requires Typed(t) && Settled(t) && WellSent(t, Stake(book, owner, staker, amount))
    requires Deposit(t, book, owner, staker, amount).Some?
    ensures var after := Deposit(t, book, owner, staker, amount).value; Typed(after) && Settled(after)
  {
    hide Sum, SumOf, Owned;
    var after := Deposit(t, book, owner, staker, amount).value;
    var rows := RowsOf(t, book);
    SumOfPut(rows, owner, staker, Amount(rows, owner, staker) + amount);
    if book.Cw20Book? {
      ResetTotals(t, after, owner, SumOf(t.cw20, owner) + amount);
    } else {
      assert Right(t, owner);
      ResetOwnTotal(t, after, owner);
    }
  }

  lemma WithdrawalSettles(t: Tables, book: Book, owner: string, staker: string, amount: int)
    requires Typed(t) && Settled(t) && WellSent(t, Unstake(book, owner, staker, amount))
    requires Withdrawal(t, book, owner, staker, amount).Some?
    ensures var after := Withdrawal(t, book, owner, staker, amount).value; Typed(after) && Settled(after)
  {
    hide Sum, SumOf, Owned, Withdraw;
    var after := Withdrawal(t, book, owner, staker, amount).value;
    SumOfWithdraw(RowsOf(t, book), owner, staker, amount);
    if book.Cw20Book? {
      ResetTotals(t, after, owner, SumOf(t.cw20, owner) - amount);
    } else if owner in t.modules {
      assert Right(t, owner);
      WithdrawOwners(t.native, owner, staker, amount);
      ResetOwnTotal(t, after, owner);
    } else {
      assert after == t by { assert t.native - {(owner, staker)} == t.native; }
    }
  }

  lemma WithdrawOwners(rows: Rows, owner: string, staker: string, amount: int)
    ensures forall k :: k in Withdraw(rows, owner, staker, amount) ==> k in rows || k.0 == owner
  {
  }

  lemma {:induction false} UpsertOwners(rows: Rows, owner: string, listing: Listing)
    ensures forall k :: k in UpsertAll(rows, owner, listing) ==> k in rows || k.0 == owner
  {
    if listing != [] {
      UpsertOwners(rows, owner, listing[..|listing| - 1]);
    }
  }

  lemma CopySettles(t: Tables, book: Book, owner: string, listing: Listing)
    requires Typed(t) && Settled(t) && WellSent(t, SnapshotStakers(book, owner, listing))
    requires CopyStakers(t, book, owner, listing).Some?
    ensures var after := CopyStakers(t, book, owner, listing).value;
            Typed(after) && (Settled(after) <==> Harmless(t, SnapshotStakers(book, owner, listing)))
  {
    hide Sum, Unlisted, Distinct, UpsertAll, ListTotal, SumOf;
    if listing != [] {
      var after := CopyStakers(t, book, owner, listing).value;
      SumOfListing(RowsOf(t, book), owner, listing);
      UpsertAllFrame(RowsOf(t, book), owner, listing);
      UpsertOwners(RowsOf(t, book), owner, listing);
      if book.Cw20Book? {
        ResetTotals(t, after, owner, ListTotal(listing));
      } else {
        ResetOwnTotal(t, after, owner);
      }
    }
  }

  lemma RequerySettles(t: Tables, owner: string, staker: string, unstake: bool, held: set<string>)
    requires Typed(t) && Settled(t) && WellSent(t, NftEvent(owner, staker, unstake, held))
    requires Requery(t, owner, staker, unstake, held).Some?
    ensures var after := Requery(t, owner, staker, unstake, held).value; Typed(after) && Settled(after)
  {
    var after := Requery(t, owner, staker, unstake, held).value;
    NftRowsFrame(t.nfts, owner, staker, unstake, held);
    if owner in t.modules {
      ResetOwnTotal(t, after, owner);
    } else {
      assert after.nfts == t.nfts;
    }
  }

  lemma ReplaceSettles(t: Tables, group: string, listing: Listing)
    requires Typed(t) && Settled(t) && ReplaceMembers(t, group, listing).Some?
    ensures var after := ReplaceMembers(t, group, listing).value;
            Typed(after) && (Settled(after) <==> Harmless(t, UpdateMembers(group, listing)))
  {
    hide Sum, Distinct, UpsertAll;
    var after := ReplaceMembers(t, group, listing).value;
    var kept := Without(t.members, group);
    assert forall o :: o != group ==> Owned(kept, o) == Owned(t.members, o);
    if listing != [] {
      SumOfListing(kept, group, listing);
      UpsertAllFrame(kept, group, listing);
      NothingUnlisted(kept, group, listing);
    }
    ResetGroupTotals(t, after, group, ListTotal(listing));
  }

  lemma FillSettles(t: Tables, group: string, listing: Listing)
    requires Typed(t) && Settled(t) && FillGroup(t, group, listing).Some?
    ensures var after := FillGroup(t, group, listing).value;
            Typed(after) && (Settled(after) <==> Harmless(t, InstantiateGroup(group, listing)))
  {
    hide Sum, Distinct, UpsertAll;
    var after := FillGroup(t, group, listing).value;
    if listing != [] {
      var kept := Without(t.members, group);
      assert forall o :: o != group ==> Owned(kept, o) == Owned(t.members, o);
      SumOfListing(kept, group, listing);
      UpsertAllFrame(kept, group, listing);
      NothingUnlisted(kept, group, listing);
      assert SetGroupTotals(t.modules, group, SumOf(t.members, group)) == t.modules by {
        assert forall m :: m in t.modules ==> Right(t, m);
      }
      ResetGroupTotals(t, after, group, SumOf(t.members, group));
    }
  }

  lemma NothingUnlisted(rows: Rows, owner: string, listing: Listing)
    requires Owned(rows, owner) == map[]
    ensures Sum(Unlisted(rows, owner, listing)) == 0
  {
    assert Unlisted(rows, owner, listing).Keys <= Owned(rows, owner).Keys;
  }

  // -------------------------------------------------------------------------
  // Every step, every run
  // -------------------------------------------------------------------------

  /** One step of any handler or snapshot pass: all totals agree with their rows afterwards exactly when
      the step is not one of the five harmful ones. Staking, unstaking and NFT events never are. */
  lemma StepSettles(t: Tables, step: Step)
    requires Typed(t) && Settled(t) && WellSent(t, step) && Apply(t, step).Some?
    ensures Typed(Apply(t, step).value)
    ensures Settled(Apply(t, step).value) <==> Harmless(t, step)
  {
    match step {
      case Stake(book, owner, staker, amount) => DepositSettles(t, book, owner, staker, amount);
      case Unstake(book, owner, staker, amount) => WithdrawalSettles(t, book, owner, staker, amount);
      case NftEvent(owner, staker, unstake, held) => RequerySettles(t, owner, staker, unstake, held);
      case InstantiateGroup(group, listing) => FillSettles(t, group, listing);
      case UpdateMembers(group, listing) => ReplaceSettles(t, group, listing);
      case Create(address, kind, contract, group) => CreateSettles(t, address, kind, contract, group);
      case LinkStaking(address, contract, readable) => LinkSettles(t, address, contract, readable);
      case LinkGroup(address, group) => JoinSettles(t, address, group);
      case SnapshotStakers(book, owner, listing) => CopySettles(t, book, owner, listing);
      case SnapshotMembers(group, listing) => if listing != [] { ReplaceSettles(t, group, listing); }
    }
    hide Apply, Settled, Typed, WellSent, Harmless;
  }
}
