/** What every handler and snapshot pass leaves in the staker, member and module tables, read off the tables
    before it and the step alone; and the member rows and module links of whole runs. */
module DaoEffects {
  import opened Wrappers
  import opened DaoStaking
  import opened DaoRuns

  // -------------------------------------------------------------------------
  // Rows
  // -------------------------------------------------------------------------

  ghost predicate OtherRowsKept(before: Rows, owner: string, staker: string, after: Rows) {
    forall k :: k != (owner, staker) ==> (k in after <==> k in before) && (k in before ==> after[k] == before[k])
  }

  ghost predicate OtherOwnersKept(before: Rows, owner: string, after: Rows) {
    forall k: (string, string) :: k.0 != owner ==>
      (k in after <==> k in before) && (k in before ==> after[k] == before[k])
  }

  predicate IsListed(listing: Listing, account: string) {
    exists i :: 0 <= i < |listing| && listing[i].0 == account
  }

  // The owner's rows are the listing's, each with its last amount, and no others.
  ghost predicate Holds(rows: Rows, owner: string, listing: Listing) {
    forall x ::
      ((owner, x) in rows <==> IsListed(listing, x)) && Amount(rows, owner, x) == Listed(listing, x, 0)
  }

  // The listing's accounts have its amounts, all others what they had.
  ghost predicate TakesOver(before: Rows, owner: string, listing: Listing, after: Rows) {
    && OtherOwnersKept(before, owner, after)
    && forall x ::
         && ((owner, x) in after <==> (owner, x) in before || IsListed(listing, x))
         && Amount(after, owner, x) == Listed(listing, x, Amount(before, owner, x))
  }

  // -------------------------------------------------------------------------
  // Modules
  // -------------------------------------------------------------------------

  type Modules = map<string, VotingModule>

  predicate LinkedTotals(before: Modules, contract: string, total: int, after: Modules) {
    after.Keys == before.Keys
    && forall m :: m in before ==>
         after[m] == if before[m].stakingContract == Some(contract) then before[m].(totalWeight := total) else before[m]
  }

  predicate JoinedTotals(before: Modules, group: string, total: int, after: Modules) {
    after.Keys == before.Keys
    && forall m :: m in before ==>
         after[m] == if before[m].group == Some(group) then before[m].(totalWeight := total) else before[m]
  }

  predicate OwnTotal(before: Modules, address: string, total: int, after: Modules) {
    after.Keys == before.Keys
    && forall m :: m in before ==>
         after[m] == if m == address then before[m].(totalWeight := total) else before[m]
  }

  // -------------------------------------------------------------------------
  // Steps
  // -------------------------------------------------------------------------

  // A statement of the step fails: it refers to a module that is not there, or one INSERT meets an account twice.
  predicate Refused(t: Tables, step: Step) {
    match step
    case Stake(book, owner, _, _) => book.NativeBook? && owner !in t.modules
    case Unstake(book, owner, staker, amount) =>
      book.NativeBook? && owner !in t.modules && Amount(t.native, owner, staker) != amount
    case NftEvent(owner, _, _, held) => held != {} && owner !in t.modules
    case InstantiateGroup(_, listing) => listing != [] && !Distinct(listing)
    case UpdateMembers(_, listing) => listing != [] && !Distinct(listing)
    case SnapshotMembers(_, listing) => listing != [] && !Distinct(listing)
    case SnapshotStakers(book, owner, listing) => listing != [] && book.NativeBook? && owner !in t.modules
    case _ => false
  }

  ghost predicate StakeLeaves(before: Rows, owner: string, staker: string, amount: int, after: Rows) {
    && OtherRowsKept(before, owner, staker, after)
    && (owner, staker) in after && after[(owner, staker)] == Amount(before, owner, staker) + amount
  }

  ghost predicate UnstakeLeaves(before: Rows, owner: string, staker: string, amount: int, after: Rows) {
    && OtherRowsKept(before, owner, staker, after)
    && ((owner, staker) in after <==> Amount(before, owner, staker) != amount)
    && Amount(after, owner, staker) == Amount(before, owner, staker) - amount
  }

  ghost predicate NftsLeft(before: set<Nft>, owner: string, staker: string, unstake: bool, held: set<string>,
                           after: set<Nft>)
  {
    forall n ::
      n in after <==>
        if n.owner == owner && n.staker == staker then n.tokenId in held || (n in before && !unstake) else n in before
  }

  // The group's members are the listing's, unless that is empty.
  ghost predicate GroupLeaves(before: Rows, group: string, listing: Listing, after: Rows) {
    if listing == [] then after == before
    else OtherOwnersKept(before, group, after) && Holds(after, group, listing)
  }

  ghost predicate StakersLeave(t: Tables, book: Book, owner: string, listing: Listing, after: Tables) {
    if listing == [] then after == t
    else if book.Cw20Book? then
      && after == t.(cw20 := after.cw20, modules := after.modules)
      && TakesOver(t.cw20, owner, listing, after.cw20)
      && LinkedTotals(t.modules, owner, ListTotal(listing), after.modules)
    else
      && after == t.(native := after.native, modules := after.modules)
      && TakesOver(t.native, owner, listing, after.native)
      && OwnTotal(t.modules, owner, ListTotal(listing), after.modules)
  }

  ghost predicate MembersLeave(t: Tables, group: string, listing: Listing, after: Tables) {
    && after == t.(members := after.members, modules := after.modules)
    && GroupLeaves(t.members, group, listing, after.members)
    && JoinedTotals(t.modules, group, ListTotal(listing), after.modules)
  }

  predicate CreateLeaves(before: Modules, address: string, kind: Kind, contract: Option<string>, group: Option<string>,
                         after: Modules)
  {
    && after.Keys == before.Keys + {address}
    && (forall m :: m in before ==> after[m] == before[m])
    && (address !in before ==> after[address] == VotingModule(kind, contract, group, 0))
  }

  // The module is linked; its total and that of all others linked to the contract are the sum, if it was read.
  predicate LinkLeaves(before: Modules, address: string, contract: string, readable: bool, sum: int, after: Modules) {
    && after.Keys == before.Keys
    && forall m :: m in before ==>
         var linked := if m == address then before[m].(stakingContract := Some(contract)) else before[m];
         var counts := readable && linked.stakingContract == Some(contract);
         after[m] == if counts then linked.(totalWeight := sum) else linked
  }

  // The module has joined the group, with the sum of its rows as total.
  predicate JoinLeaves(before: Modules, address: string, group: string, sum: int, after: Modules) {
    && after.Keys == before.Keys
    && forall m :: m in before ==>
         after[m] == if m == address then before[m].(group := Some(group), totalWeight := sum) else before[m]
  }

  ghost predicate Leaves(t: Tables, step: Step, after: Tables) {
    match step
    case Stake(book, owner, staker, amount) =>
      if book.Cw20Book? then
        && after == t.(cw20 := after.cw20, modules := after.modules)
        && StakeLeaves(t.cw20, owner, staker, amount, after.cw20)
        && LinkedTotals(t.modules, owner, SumOf(t.cw20, owner) + amount, after.modules)
      else
        && after == t.(native := after.native, modules := after.modules)
        && StakeLeaves(t.native, owner, staker, amount, after.native)
        && owner in t.modules && OwnTotal(t.modules, owner, t.modules[owner].totalWeight + amount, after.modules)
    case Unstake(book, owner, staker, amount) =>
      if book.Cw20Book? then
        && after == t.(cw20 := after.cw20, modules := after.modules)
        && UnstakeLeaves(t.cw20, owner, staker, amount, after.cw20)
        && LinkedTotals(t.modules, owner, SumOf(t.cw20, owner) - amount, after.modules)
      else
        && after == t.(native := after.native, modules := after.modules)
        && UnstakeLeaves(t.native, owner, staker, amount, after.native)
        && OwnTotal(t.modules, owner, (if owner in t.modules then t.modules[owner].totalWeight else 0) - amount,
                    after.modules)
    case NftEvent(owner, staker, unstake, held) =>
      && after == t.(nfts := after.nfts, modules := after.modules)
      && NftsLeft(t.nfts, owner, staker, unstake, held, after.nfts)
      && OwnTotal(t.modules, owner, |NftsOf(after.nfts, owner)|, after.modules)
    case InstantiateGroup(group, listing) =>
      after == t.(members := after.members) && GroupLeaves(t.members, group, listing, after.members)
    case UpdateMembers(group, listing) => MembersLeave(t, group, listing, after)
    case Create(address, kind, contract, group) =>
      after == t.(modules := after.modules) && CreateLeaves(t.modules, address, kind, contract, group, after.modules)
    case LinkStaking(address, contract, readable) =>
      && after == t.(modules := after.modules)
      && LinkLeaves(t.modules, address, contract, readable, SumOf(t.cw20, contract), after.modules)
    case LinkGroup(address, group) =>
      && after == t.(modules := after.modules)
      && JoinLeaves(t.modules, address, group, SumOf(t.members, group), after.modules)
    case SnapshotStakers(book, owner, listing) => StakersLeave(t, book, owner, listing, after)
    case SnapshotMembers(group, listing) => if listing == [] then after == t else MembersLeave(t, group, listing, after)
  }

  // The step is refused, or leaves what it should.
  ghost predicate Done(t: Tables, step: Step, after: Option<Tables>) {
    && (after.None? <==> Refused(t, step))
    && (after.Some? ==> Leaves(t, step, after.value))
  }

  lemma {:induction false} ListedRows(rows: Rows, owner: string, listing: Listing)
    ensures TakesOver(rows, owner, listing, UpsertAll(rows, owner, listing))
  {
    hide TakesOver, IsListed;
    if listing == [] {
      NothingTaken(rows, owner);
    } else {
      var init, last := listing[..|listing| - 1], listing[|listing| - 1];
      ListedRows(rows, owner, init);
      assert listing == init + [last];
      OneMoreListed(rows, owner, init, last, UpsertAll(rows, owner, init));
    }
  }

  lemma NothingTaken(rows: Rows, owner: string)
    ensures TakesOver(rows, owner, [], rows)
  {
  }

  lemma OneMoreListed(rows: Rows, owner: string, listing: Listing, entry: (string, int), mid: Rows)
    requires TakesOver(rows, owner, listing, mid)
    ensures TakesOver(rows, owner, listing + [entry], mid[(owner, entry.0) := entry.1])
  {
    ListedMore(listing, entry);
    hide IsListed;
    assert (listing + [entry])[..|listing|] == listing;
  }

  lemma ListedMore(listing: Listing, entry: (string, int))
    ensures forall x :: IsListed(listing + [entry], x) <==> IsListed(listing, x) || x == entry.0
  {
    var more := listing + [entry];
    assert more[|listing|] == entry;
    forall x
      ensures IsListed(more, x) <==> IsListed(listing, x) || x == entry.0
    {
      if i :| 0 <= i < |listing| && listing[i].0 == x {
        assert more[i].0 == x;
      }
    }
  }

  lemma ReplacedRows(rows: Rows, group: string, listing: Listing)
    ensures OtherOwnersKept(rows, group, UpsertAll(Without(rows, group), group, listing))
    ensures Holds(UpsertAll(Without(rows, group), group, listing), group, listing)
  {
    ListedRows(Without(rows, group), group, listing);
    hide UpsertAll, IsListed;
  }

  lemma EmptyIsDistinct()
    ensures Distinct([])
  {
  }

  /** Every handler and every pass, field by field: when a statement of it fails, which rows it writes, adds or
      removes and with what amounts, which totals it sets and to what, and that it leaves all else alone. */
  lemma StepLeaves(t: Tables, step: Step)
    ensures Done(t, step, Apply(t, step))
  {
    hide Apply, Refused, Leaves;
    match step {
      case Stake(_, _, _, _) => StakingLeaves(t, step);
      case Unstake(_, _, _, _) => UnstakingLeaves(t, step);
      case NftEvent(_, _, _, _) => RequeryLeaves(t, step);
      case InstantiateGroup(_, _) => GroupStepLeaves(t, step);
      case UpdateMembers(_, _) => GroupStepLeaves(t, step);
      case SnapshotMembers(_, _) => GroupStepLeaves(t, step);
      case SnapshotStakers(_, _, _) => CopyLeaves(t, step);
      case _ => ModuleStepLeaves(t, step);
    }
  }

  lemma TotalsSet(modules: Modules, name: string, total: int)
    ensures LinkedTotals(modules, name, total, SetTotals(modules, name, total))
    ensures JoinedTotals(modules, name, total, SetGroupTotals(modules, name, total))
    ensures OwnTotal(modules, name, total, SetTotal(modules, name, total))
  {
  }

  lemma StakingLeaves(t: Tables, step: Step)
    requires step.Stake?
    ensures Done(t, step, Apply(t, step))
  {
    hide Done, Deposit;
    match step {
      case Stake(Cw20Book, owner, staker, amount) => Cw20StakeLeaves(t, owner, staker, amount);
      case Stake(NativeBook, owner, staker, amount) => NativeStakeLeaves(t, owner, staker, amount);
    }
  }

  lemma Cw20StakeLeaves(t: Tables, owner: string, staker: string, amount: int)
    ensures Done(t, Stake(Cw20Book, owner, staker, amount), Deposit(t, Cw20Book, owner, staker, amount))
  {
    hide SumOf, LinkedTotals, SetTotals;
    TotalsSet(t.modules, owner, SumOf(t.cw20, owner) + amount);
  }

  lemma NativeStakeLeaves(t: Tables, owner: string, staker: string, amount: int)
    ensures Done(t, Stake(NativeBook, owner, staker, amount), Deposit(t, NativeBook, owner, staker, amount))
  {
    hide OwnTotal, SetTotal;
    if owner in t.modules {
      TotalsSet(t.modules, owner, t.modules[owner].totalWeight + amount);
    }
  }

  lemma UnstakingLeaves(t: Tables, step: Step)
    requires step.Unstake?
    ensures Done(t, step, Apply(t, step))
  {
    hide Done, Withdrawal;
    match step {
      case Unstake(Cw20Book, owner, staker, amount) => Cw20UnstakeLeaves(t, owner, staker, amount);
      case Unstake(NativeBook, owner, staker, amount) => NativeUnstakeLeaves(t, owner, staker, amount);
    }
  }

  lemma Cw20UnstakeLeaves(t: Tables, owner: string, staker: string, amount: int)
    ensures Done(t, Unstake(Cw20Book, owner, staker, amount), Withdrawal(t, Cw20Book, owner, staker, amount))
  {
    hide SumOf, Withdraw, UnstakeLeaves, LinkedTotals, SetTotals;
    WithdrawLeaves(t.cw20, owner, staker, amount);
    TotalsSet(t.modules, owner, SumOf(t.cw20, owner) - amount);
  }

  lemma NativeUnstakeLeaves(t: Tables, owner: string, staker: string, amount: int)
    ensures Done(t, Unstake(NativeBook, owner, staker, amount), Withdrawal(t, NativeBook, owner, staker, amount))
  {
    hide Withdraw, UnstakeLeaves, OwnTotal, SetTotal;
    WithdrawLeaves(t.native, owner, staker, amount);
    NoTotal(t.modules, owner, -amount);
    if owner in t.modules {
      TotalsSet(t.modules, owner, t.modules[owner].totalWeight - amount);
    }
  }

  lemma NoTotal(modules: Modules, address: string, total: int)
    ensures address !in modules ==> OwnTotal(modules, address, total, modules)
  {
  }

  lemma WithdrawLeaves(rows: Rows, owner: string, staker: string, amount: int)
    ensures UnstakeLeaves(rows, owner, staker, amount, Withdraw(rows, owner, staker, amount))
    ensures Amount(rows, owner, staker) == amount ==> Withdraw(rows, owner, staker, amount) == rows - {(owner, staker)}
  {
  }

  lemma RequeryLeaves(t: Tables, step: Step)
    requires step.NftEvent?
    ensures Done(t, step, Apply(t, step))
  {
    hide NftsOf, NftsLeft, NftRows;
    NftLeaves(t.nfts, step.owner, step.staker, step.unstake, step.held);
  }

  lemma GroupStepLeaves(t: Tables, step: Step)
    requires step.InstantiateGroup? || step.UpdateMembers? || step.SnapshotMembers?
    ensures Done(t, step, Apply(t, step))
  {
    hide Done, FillGroup, ReplaceMembers;
    match step {
      case InstantiateGroup(group, listing) => FillLeaves(t, group, listing);
      case UpdateMembers(group, listing) => ReplaceLeaves(t, group, listing);
      case SnapshotMembers(group, listing) => RecopyLeaves(t, group, listing);
    }
  }

  lemma FillLeaves(t: Tables, group: string, listing: Listing)
    ensures Done(t, InstantiateGroup(group, listing), FillGroup(t, group, listing))
  {
    ReplacedRows(t.members, group, listing);
    hide UpsertAll, Distinct, Without, Holds, OtherOwnersKept;
  }

  lemma ReplaceLeaves(t: Tables, group: string, listing: Listing)
    ensures Done(t, UpdateMembers(group, listing), ReplaceMembers(t, group, listing))
  {
    EmptyIsDistinct();
    ReplacedRows(t.members, group, listing);
    TotalsSet(t.modules, group, ListTotal(listing));
    hide UpsertAll, ListTotal, Distinct, Without, Holds, OtherOwnersKept, JoinedTotals, SetGroupTotals;
  }

  lemma RecopyLeaves(t: Tables, group: string, listing: Listing)
    ensures Done(t, SnapshotMembers(group, listing), Apply(t, SnapshotMembers(group, listing)))
  {
    ReplaceLeaves(t, group, listing);
    hide ReplaceMembers, MembersLeave, Distinct;
  }

  lemma CopyLeaves(t: Tables, step: Step)
    requires step.SnapshotStakers?
    ensures Done(t, step, Apply(t, step))
  {
    ListedRows(RowsOf(t, step.book), step.owner, step.listing);
    TotalsSet(t.modules, step.owner, ListTotal(step.listing));
    hide UpsertAll, ListTotal, Distinct, TakesOver, LinkedTotals, OwnTotal, SetTotals, SetTotal;
  }

  lemma ModuleStepLeaves(t: Tables, step: Step)
    requires step.Create? || step.LinkStaking? || step.LinkGroup?
    ensures Done(t, step, Apply(t, step))
  {
    hide SumOf;
  }

  lemma NftLeaves(nfts: set<Nft>, owner: string, staker: string, unstake: bool, held: set<string>)
    ensures NftsLeft(nfts, owner, staker, unstake, held, NftRows(nfts, owner, staker, unstake, held))
  {
    hide NftRows;
    forall n
      ensures n in NftRows(nfts, owner, staker, unstake, held) <==>
                if n.owner == owner && n.staker == staker then n.tokenId in held || (n in nfts && !unstake)
                else n in nfts
    {
      InNftRows(nfts, owner, staker, unstake, held, n);
    }
  }

  // -------------------------------------------------------------------------
  // Whole runs: members and links
  // -------------------------------------------------------------------------

  predicate Lists(step: Step, group: string) {
    && (step.InstantiateGroup? || step.UpdateMembers? || step.SnapshotMembers?)
    && step.owner == group && step.listing != []
  }

  // The reference for cw4 members: the group's last listing that is not empty.
  function LastListing(steps: seq<Step>, group: string): Listing {
    if steps == [] then []
    else if Lists(steps[|steps| - 1], group) then steps[|steps| - 1].listing
    else LastListing(steps[..|steps| - 1], group)
  }

  // The reference for a module: created once, then linked and joined anew each time; its total aside.
  datatype Links = Unknown | Known(kind: Kind, stakingContract: Option<string>, group: Option<string>)

  function LinksNow(steps: seq<Step>, address: string): Links {
    if steps == [] then Unknown
    else LinksAfter(LinksNow(steps[..|steps| - 1], address), steps[|steps| - 1], address)
  }

  function LinksAfter(before: Links, step: Step, address: string): Links {
    match step
    case Create(m, kind, contract, group) =>
      if m == address && before.Unknown? then Known(kind, contract, group) else before
    case LinkStaking(m, contract, _) =>
      if m == address && before.Known? then before.(stakingContract := Some(contract)) else before
    case LinkGroup(m, group) => if m == address && before.Known? then before.(group := Some(group)) else before
    case _ => before
  }

  function LinksOf(modules: Modules, address: string): Links {
    if address !in modules then Unknown
    else Known(modules[address].kind, modules[address].stakingContract, modules[address].group)
  }

  lemma MembersFollow(t: Tables, step: Step, after: Tables, group: string, listing: Listing)
    requires Leaves(t, step, after) && Holds(t.members, group, listing)
    ensures Holds(after.members, group, if Lists(step, group) then step.listing else listing)
  {
    hide SumOf, ListTotal, NftsOf, IsListed, NftsLeft, TakesOver, StakeLeaves, UnstakeLeaves;
    hide LinkedTotals, JoinedTotals, OwnTotal, CreateLeaves, LinkLeaves, JoinLeaves;
  }

  lemma LinksFollow(t: Tables, step: Step, after: Tables, address: string)
    requires Leaves(t, step, after)
    ensures LinksOf(after.modules, address) == LinksAfter(LinksOf(t.modules, address), step, address)
  {
    hide SumOf, ListTotal, NftsOf, NftsLeft, TakesOver, StakeLeaves, UnstakeLeaves, GroupLeaves;
  }

  /** After any run a group's members are exactly those of its last listing that was not empty, each with the
      weight listed; and a module exists exactly if it was created, with its first kind, linked to the contract
      and joined to the group it was last linked and joined to. */
  lemma {:induction false} MembersAndLinks(steps: seq<Step>, group: string, address: string)
    requires RunSteps(NoRows, steps).Some?
    ensures Holds(RunSteps(NoRows, steps).value.members, group, LastListing(steps, group))
    ensures LinksOf(RunSteps(NoRows, steps).value.modules, address) == LinksNow(steps, address)
  {
    hide Apply, Leaves, Holds, Refused, Lists;
    if steps == [] {
      NoMembers(group);
    } else {
      var init, last := steps[..|steps| - 1], steps[|steps| - 1];
      MembersAndLinks(init, group, address);
      var t := RunSteps(NoRows, init).value;
      StepLeaves(t, last);
      MembersFollow(t, last, Apply(t, last).value, group, LastListing(init, group));
      LinksFollow(t, last, Apply(t, last).value, address);
    }
  }

  lemma NoMembers(group: string)
    ensures Holds(map[], group, [])
  {
  }

  // -------------------------------------------------------------------------
  // Sums of listings
  // -------------------------------------------------------------------------

  lemma {:induction false} ListedAmount(listing: Listing, x: string)
    ensures !IsListed(listing, x) ==> Listed(listing, x, 0) == 0
  {
    if listing != [] {
      var init, last := listing[..|listing| - 1], listing[|listing| - 1];
      ListedAmount(init, x);
      assert listing == init + [last];
      ListedMore(init, last);
    }
  }

  /** An owner whose rows are a listing's has the listing's total. */
  lemma HeldTotal(rows: Rows, owner: string, listing: Listing)
    requires Holds(rows, owner, listing) && Distinct(listing)
    ensures SumOf(rows, owner) == ListTotal(listing)
  {
    var copied := UpsertAll(map[], owner, listing);
    ListedRows(map[], owner, listing);
    hide UpsertAll;
    assert Holds(copied, owner, listing) by { hide IsListed; }
    SameRows(rows, copied, owner, listing);
    SumOfListing(map[], owner, listing);
    assert Unlisted(map[], owner, listing) == map[];
    hide Owned, Unlisted;
  }

  lemma SameRows(rows: Rows, other: Rows, owner: string, listing: Listing)
    requires Holds(rows, owner, listing) && Holds(other, owner, listing)
    ensures Owned(rows, owner) == Owned(other, owner)
  {
    hide IsListed;
    forall k: (string, string) | k.0 == owner
      ensures k in rows <==> k in other
      ensures k in rows ==> rows[k] == other[k]
    {
      assert k == (owner, k.1) && Amount(rows, owner, k.1) == Amount(other, owner, k.1);
    }
  }
}
