/** Staker rows and cached voting weights: src/sync_handlers/event_data_sync_wasm_dao.ts,
    src/postgres/dao.ts and the staker passes of src/sync/daodao_snapshot.ts. Totals are kept in four ways:
    recomputed from a sum (cw20), incremented (native), recounted (cw721), summed from a listing (cw4). */
module DaoStaking {
  import opened Wrappers
  import opened Sums

  // -------------------------------------------------------------------------
  // Tables
  // -------------------------------------------------------------------------

  datatype Kind = Cw20Staked | Cw4 | NativeStaked | Cw721Staked

  datatype VotingModule = VotingModule(
    kind: Kind, stakingContract: Option<string>, group: Option<string>, totalWeight: int)

  // Rows of dao_cw20_staker, dao_native_staker and dao_cw4_member, keyed by owning contract and account.
  type Rows = map<(string, string), int>

  type Listing = seq<(string, int)>

  datatype Nft = Nft(owner: string, staker: string, tokenId: string)

  datatype Tables = Tables(
    modules: map<string, VotingModule>,
    cw20: Rows,
    native: Rows,
    members: Rows,
    nfts: set<Nft>)

  const NoRows := Tables(map[], map[], map[], map[], {})

  function Amount(rows: Rows, owner: string, account: string): int {
    if (owner, account) in rows then rows[(owner, account)] else 0
  }

  function Owned(rows: Rows, owner: string): Rows {
    map k | k in rows && k.0 == owner :: rows[k]
  }

  ghost function SumOf(rows: Rows, owner: string): int {
    Sum(Owned(rows, owner))
  }

  function NftsOf(nfts: set<Nft>, owner: string): set<Nft> {
    set n | n in nfts && n.owner == owner
  }

  // One number becomes the total of every module linked to the contract.
  function SetTotals(modules: map<string, VotingModule>, contract: string, total: int): map<string, VotingModule> {
    map m | m in modules ::
      if modules[m].stakingContract == Some(contract) then modules[m].(totalWeight := total) else modules[m]
  }

  function SetGroupTotals(modules: map<string, VotingModule>, group: string, total: int): map<string, VotingModule> {
    map m | m in modules ::
      if modules[m].group == Some(group) then modules[m].(totalWeight := total) else modules[m]
  }

  function SetTotal(modules: map<string, VotingModule>, address: string, total: int): map<string, VotingModule> {
    if address in modules then modules[address := modules[address].(totalWeight := total)] else modules
  }

  function UpsertAll(rows: Rows, owner: string, listing: Listing): Rows {
    if listing == [] then rows
    else
      var last := listing[|listing| - 1];
      UpsertAll(rows, owner, listing[..|listing| - 1])[(owner, last.0) := last.1]
  }

  function ListTotal(listing: Listing): int {
    if listing == [] then 0 else ListTotal(listing[..|listing| - 1]) + listing[|listing| - 1].1
  }

  function Without(rows: Rows, owner: string): Rows {
    map k | k in rows && k.0 != owner :: rows[k]
  }

  predicate Distinct(listing: Listing) {
    forall i, j :: 0 <= i < j < |listing| ==> listing[i].0 != listing[j].0
  }

  // -------------------------------------------------------------------------
  // The handlers. None: a statement failed (a row refers to a module that does not exist, or one
  // INSERT meets the same row twice), and the transaction around the handler is lost.
  // -------------------------------------------------------------------------

  datatype Book = Cw20Book | NativeBook

  // `readable` is false where the contract's stored config cannot be parsed at this height: the
  // handler is then abandoned at that point and the block goes on.
  datatype Step =
    | Stake(book: Book, owner: string, staker: string, amount: int)
    | Unstake(book: Book, owner: string, staker: string, amount: int)
    | NftEvent(owner: string, staker: string, unstake: bool, held: set<string>)
    | InstantiateGroup(owner: string, listing: Listing)
    | UpdateMembers(owner: string, listing: Listing)
    | Create(address: string, kind: Kind, stakingContract: Option<string>, group: Option<string>)
    | LinkStaking(address: string, contract: string, readable: bool)
    | LinkGroup(address: string, contract: string)
    | SnapshotStakers(book: Book, owner: string, listing: Listing)
    | SnapshotMembers(owner: string, listing: Listing)

  function RowsOf(t: Tables, book: Book): Rows {
    if book.Cw20Book? then t.cw20 else t.native
  }

  ghost function Deposit(t: Tables, book: Book, owner: string, staker: string, amount: int): Option<Tables> {
    var k := (owner, staker);
    if book.Cw20Book? then
      Some(t.(cw20 := t.cw20[k := Amount(t.cw20, owner, staker) + amount],
              modules := SetTotals(t.modules, owner, SumOf(t.cw20, owner) + amount)))
    else if owner !in t.modules then None
    else
      Some(t.(native := t.native[k := Amount(t.native, owner, staker) + amount],
              modules := SetTotal(t.modules, owner, t.modules[owner].totalWeight + amount)))
  }

  function Withdraw(rows: Rows, owner: string, staker: string, amount: int): Rows {
    var left := Amount(rows, owner, staker) - amount;
    if left == 0 then rows - {(owner, staker)} else rows[(owner, staker) := left]
  }

  ghost function Withdrawal(t: Tables, book: Book, owner: string, staker: string, amount: int): Option<Tables> {
    if book.Cw20Book? then
      Some(t.(cw20 := Withdraw(t.cw20, owner, staker, amount),
              modules := SetTotals(t.modules, owner, SumOf(t.cw20, owner) - amount)))
    else if owner !in t.modules then
      if Amount(t.native, owner, staker) == amount then Some(t.(native := t.native - {(owner, staker)})) else None
    else
      Some(t.(native := Withdraw(t.native, owner, staker, amount),
              modules := SetTotal(t.modules, owner, t.modules[owner].totalWeight - amount)))
  }

  function NftRows(nfts: set<Nft>, owner: string, staker: string, unstake: bool, held: set<string>): set<Nft> {
    (if unstake then set n | n in nfts && !(n.owner == owner && n.staker == staker) else nfts)
    + set id | id in held :: Nft(owner, staker, id)
  }

  function Requery(t: Tables, owner: string, staker: string, unstake: bool, held: set<string>): Option<Tables> {
    if held != {} && owner !in t.modules then None
    else
      var nfts := NftRows(t.nfts, owner, staker, unstake, held);
      Some(t.(nfts := nfts, modules := SetTotal(t.modules, owner, |NftsOf(nfts, owner)|)))
  }

  function ReplaceMembers(t: Tables, group: string, listing: Listing): Option<Tables> {
    if !Distinct(listing) then None
    else Some(t.(members := if listing == [] then t.members else UpsertAll(Without(t.members, group), group, listing),
                 modules := SetGroupTotals(t.modules, group, ListTotal(listing))))
  }

  // A new group's members, without a look at the totals of modules joined to it.
  function FillGroup(t: Tables, group: string, listing: Listing): Option<Tables> {
    if listing == [] then Some(t)
    else if !Distinct(listing) then None
    else Some(t.(members := UpsertAll(Without(t.members, group), group, listing)))
  }

  ghost function Link(t: Tables, address: string, contract: string, readable: bool): Tables {
    var modules := if address in t.modules
                   then t.modules[address := t.modules[address].(stakingContract := Some(contract))] else t.modules;
    t.(modules := if readable then SetTotals(modules, contract, SumOf(t.cw20, contract)) else modules)
  }

  ghost function JoinGroup(t: Tables, address: string, group: string): Tables {
    if address !in t.modules then t
    else t.(modules := t.modules[address := t.modules[address].(group := Some(group),
                                                                totalWeight := SumOf(t.members, group))])
  }

  function CopyStakers(t: Tables, book: Book, owner: string, listing: Listing): Option<Tables> {
    if listing == [] then Some(t)
    else if book.Cw20Book? then
      Some(t.(cw20 := UpsertAll(t.cw20, owner, listing), modules := SetTotals(t.modules, owner, ListTotal(listing))))
    else if owner !in t.modules then None
    else
      Some(t.(native := UpsertAll(t.native, owner, listing), modules := SetTotal(t.modules, owner, ListTotal(listing))))
  }

  ghost function Apply(t: Tables, step: Step): Option<Tables> {
    match step
    case Stake(book, owner, staker, amount) => Deposit(t, book, owner, staker, amount)
    case Unstake(book, owner, staker, amount) => Withdrawal(t, book, owner, staker, amount)
    case NftEvent(owner, staker, unstake, held) => Requery(t, owner, staker, unstake, held)
    case InstantiateGroup(group, listing) => FillGroup(t, group, listing)
    case UpdateMembers(group, listing) => ReplaceMembers(t, group, listing)
    case Create(address, kind, contract, group) =>
      Some(if address in t.modules then t
           else t.(modules := t.modules[address := VotingModule(kind, contract, group, 0)]))
    case LinkStaking(address, contract, readable) => Some(Link(t, address, contract, readable))
    case LinkGroup(address, group) => Some(JoinGroup(t, address, group))
    case SnapshotStakers(book, owner, listing) => CopyStakers(t, book, owner, listing)
    case SnapshotMembers(group, listing) => if listing == [] then Some(t) else ReplaceMembers(t, group, listing)
  }

  // -------------------------------------------------------------------------
  // Sums of one contract's rows
  // -------------------------------------------------------------------------

  lemma SumOfPut(rows: Rows, owner: string, account: string, v: int)
    ensures SumOf(rows[(owner, account) := v], owner) == SumOf(rows, owner) + v - Amount(rows, owner, account)
    ensures forall o :: o != owner ==> Owned(rows[(owner, account) := v], o) == Owned(rows, o)
  {
    assert Owned(rows[(owner, account) := v], owner) == Owned(rows, owner)[(owner, account) := v];
    SumUpdate(Owned(rows, owner), (owner, account), v);
  }

  lemma SumOfDrop(rows: Rows, owner: string, account: string)
    ensures SumOf(rows - {(owner, account)}, owner) == SumOf(rows, owner) - Amount(rows, owner, account)
    ensures forall o :: o != owner ==> Owned(rows - {(owner, account)}, o) == Owned(rows, o)
  {
    assert Owned(rows - {(owner, account)}, owner) == Owned(rows, owner) - {(owner, account)};
    SumDelete(Owned(rows, owner), (owner, account));
  }

  lemma SumOfWithdraw(rows: Rows, owner: string, account: string, amount: int)
    ensures SumOf(Withdraw(rows, owner, account, amount), owner) == SumOf(rows, owner) - amount
    ensures forall o :: o != owner ==> Owned(Withdraw(rows, owner, account, amount), o) == Owned(rows, o)
  {
    SumOfPut(rows, owner, account, Amount(rows, owner, account) - amount);
    SumOfDrop(rows, owner, account);
  }

  // The contract's rows a listing does not mention.
  function Unlisted(rows: Rows, owner: string, listing: Listing): Rows {
    map k | k in rows && k.0 == owner && (forall i :: 0 <= i < |listing| ==> listing[i].0 != k.1) :: rows[k]
  }

  lemma {:induction false} UpsertAllKeeps(rows: Rows, owner: string, listing: Listing, k: (string, string))
    requires k.0 != owner || forall i :: 0 <= i < |listing| ==> listing[i].0 != k.1
    ensures k in UpsertAll(rows, owner, listing) <==> k in rows
    ensures k in rows ==> UpsertAll(rows, owner, listing)[k] == rows[k]
  {
    if listing != [] {
      UpsertAllKeeps(rows, owner, listing[..|listing| - 1], k);
    }
  }

  /** Copying a listing without repeats leaves the sum of the listing plus the rows it does not mention. */
  lemma {:induction false} SumOfListing(rows: Rows, owner: string, listing: Listing)
    requires Distinct(listing)
    ensures SumOf(UpsertAll(rows, owner, listing), owner) == ListTotal(listing) + Sum(Unlisted(rows, owner, listing))
  {
    if listing == [] {
      assert Unlisted(rows, owner, listing) == Owned(rows, owner);
    } else {
      var init, last := listing[..|listing| - 1], listing[|listing| - 1];
      var k := (owner, last.0);
      SumOfListing(rows, owner, init);
      SumOfPut(UpsertAll(rows, owner, init), owner, last.0, last.1);
      UpsertAllKeeps(rows, owner, init, k);
      UnlistedLess(rows, owner, listing);
      SumDelete(Unlisted(rows, owner, init), k);
      hide SumOf, Owned;
    }
  }

  lemma UnlistedLess(rows: Rows, owner: string, listing: Listing)
    requires listing != [] && Distinct(listing)
    ensures var init, k := listing[..|listing| - 1], (owner, listing[|listing| - 1].0);
            && Unlisted(rows, owner, listing) == Unlisted(rows, owner, init) - {k}
            && (k in rows <==> k in Unlisted(rows, owner, init))
  {
    assert listing == listing[..|listing| - 1] + [listing[|listing| - 1]];
  }

  lemma {:induction false} UpsertAllFrame(rows: Rows, owner: string, listing: Listing)
    ensures forall o :: o != owner ==> Owned(UpsertAll(rows, owner, listing), o) == Owned(rows, o)
  {
    if listing != [] {
      UpsertAllFrame(rows, owner, listing[..|listing| - 1]);
      var last := listing[|listing| - 1];
      SumOfPut(UpsertAll(rows, owner, listing[..|listing| - 1]), owner, last.0, last.1);
    }
  }

  // -------------------------------------------------------------------------
  // The tables, updated in place
  // -------------------------------------------------------------------------

  // The sum of one owner's rows, added up in any order.
  method SumRows(rows: Rows, owner: string) returns (sum: int)
    ensures sum == SumOf(rows, owner)
  {
    sum := 0;
    var left := Owned(rows, owner);
    while left != map[]
      invariant sum + Sum(left) == SumOf(rows, owner)
      decreases |left|
    {
      var k :| k in left;
      SumRemove(left, k);
      sum := sum + left[k];
      assert left.Keys == {k} + (left - {k}).Keys;
      left := left - {k};
    }
  }

  class DaoTables {
    var modules: map<string, VotingModule>
    var cw20: Rows
    var native: Rows
    var members: Rows
    var nfts: set<Nft>

    constructor ()
      ensures Contents() == NoRows
    {
      modules, cw20, native, members, nfts := map[], map[], map[], map[], {};
    }

    ghost function Contents(): Tables
      reads this
    {
      Tables(modules, cw20, native, members, nfts)
    }

    // A module that is already there is left as it is.
    method CreateVotingModule(address: string, kind: Kind, contract: Option<string>, group: Option<string>)
      modifies this`modules
      ensures Apply(old(Contents()), Create(address, kind, contract, group)) == Some(Contents())
    {
      if address !in modules {
        modules := modules[address := VotingModule(kind, contract, group, 0)];
      }
    }

    method ProcessCw20Stake(contract: string, staker: string, amount: int)
      modifies this
      ensures Apply(old(Contents()), Stake(Cw20Book, contract, staker, amount)) == Some(Contents())
    {
      var staked := Amount(cw20, contract, staker);
      var totalBefore := SumRows(cw20, contract);
      cw20 := cw20[(contract, staker) := staked + amount];
      modules := SetTotals(modules, contract, totalBefore + amount);
    }

    method ProcessCw20Unstake(contract: string, staker: string, amount: int)
      modifies this
      ensures Apply(old(Contents()), Unstake(Cw20Book, contract, staker, amount)) == Some(Contents())
    {
      var left := Amount(cw20, contract, staker) - amount;
      var totalBefore := SumRows(cw20, contract);
      if left == 0 {
        cw20 := cw20 - {(contract, staker)};
      } else {
        cw20 := cw20[(contract, staker) := left];
      }
      modules := SetTotals(modules, contract, totalBefore - amount);
    }

    // A row of dao_native_staker refers to its voting module.
    method UpsertNativeStaker(m: string, staker: string, amount: int) returns (ok: bool)
      modifies this`native
      ensures ok == (m in modules)
      ensures native == if ok then old(native)[(m, staker) := amount] else old(native)
    {
      ok := m in modules;
      if ok {
        native := native[(m, staker) := amount];
      }
    }

    method ProcessNativeStake(m: string, staker: string, amount: int) returns (ok: bool)
      modifies this
      ensures Apply(old(Contents()), Stake(NativeBook, m, staker, amount)) == if ok then Some(Contents()) else None
    {
      ok := UpsertNativeStaker(m, staker, Amount(native, m, staker) + amount);
      if ok {
        modules := SetTotal(modules, m, modules[m].totalWeight + amount);
      }
    }

    method ProcessNativeUnstake(m: string, staker: string, amount: int) returns (ok: bool)
      modifies this
      ensures Apply(old(Contents()), Unstake(NativeBook, m, staker, amount)) == if ok then Some(Contents()) else None
    {
      var left := Amount(native, m, staker) - amount;
      ok := true;
      if left == 0 {
        native := native - {(m, staker)};
      } else {
        ok := UpsertNativeStaker(m, staker, left);
      }
      if ok {
        modules := SetTotal(modules, m, (if m in modules then modules[m].totalWeight else 0) - amount);
      }
    }

    method ProcessNftEvent(m: string, staker: string, unstake: bool, held: set<string>) returns (ok: bool)
      modifies this
      ensures Apply(old(Contents()), NftEvent(m, staker, unstake, held)) == if ok then Some(Contents()) else None
    {
      if unstake {
        nfts := set n | n in nfts && !(n.owner == m && n.staker == staker);
      }
      ok := held == {} || m in modules;
      if ok {
        nfts := nfts + set id | id in held :: Nft(m, staker, id);
        modules := SetTotal(modules, m, |NftsOf(nfts, m)|);
      }
    }

    method ProcessLinkStaking(m: string, contract: string, readable: bool)
      modifies this
      ensures Apply(old(Contents()), LinkStaking(m, contract, readable)) == Some(Contents())
    {
      if m in modules {
        modules := modules[m := modules[m].(stakingContract := Some(contract))];
      }
      if !readable {
        return;
      }
      var total := SumRows(cw20, contract);
      modules := SetTotals(modules, contract, total);
    }

    method ProcessLinkGroup(m: string, group: string)
      modifies this
      ensures Apply(old(Contents()), LinkGroup(m, group)) == Some(Contents())
    {
      var total := SumRows(members, group);
      modules := SetTotal(modules, m, total);
      if m in modules {
        modules := modules[m := modules[m].(group := Some(group))];
        assert modules == old(modules)[m := old(modules)[m].(group := Some(group), totalWeight := total)];
      }
    }

    // Deletes all members of the group and inserts the listing in one statement.
    method BatchUpdateMembers(group: string, listing: Listing) returns (ok: bool)
      modifies this`members
      ensures ok == Distinct(listing)
      ensures ok ==> members == UpsertAll(Without(old(members), group), group, listing)
    {
      members := Without(members, group);
      ok := Distinct(listing);
      if ok {
        members := UpsertAll(members, group, listing);
      }
    }

    method ProcessInstantiateGroup(group: string, listing: Listing) returns (ok: bool)
      modifies this
      ensures Apply(old(Contents()), InstantiateGroup(group, listing)) == if ok then Some(Contents()) else None
    {
      ok := true;
      if listing != [] {
        ok := BatchUpdateMembers(group, listing);
      }
    }

    method ProcessUpdateMembers(group: string, listing: Listing) returns (ok: bool)
      modifies this
      ensures Apply(old(Contents()), UpdateMembers(group, listing)) == if ok then Some(Contents()) else None
    {
      ok := true;
      if listing != [] {
        ok := BatchUpdateMembers(group, listing);
        if !ok {
          return;
        }
      }
      var total := 0;
      for i := 0 to |listing|
        invariant total == ListTotal(listing[..i])
      {
        assert listing[..i + 1][..i] == listing[..i];
        total := total + listing[i].1;
      }
      assert listing[..|listing|] == listing;
      modules := SetGroupTotals(modules, group, total);
    }

    method SnapshotCw4Members(group: string, listing: Listing) returns (ok: bool)
      modifies this
      ensures Apply(old(Contents()), SnapshotMembers(group, listing)) == if ok then Some(Contents()) else None
    {
      if listing == [] {
        return true;
      }
      ok := ProcessUpdateMembers(group, listing);
    }

    method SnapshotCw20Stakers(contract: string, listing: Listing)
      modifies this
      ensures Apply(old(Contents()), SnapshotStakers(Cw20Book, contract, listing)) == Some(Contents())
    {
      if listing == [] {
        return;
      }
      var total := 0;
      for i := 0 to |listing|
        invariant total == ListTotal(listing[..i]) && cw20 == UpsertAll(old(cw20), contract, listing[..i])
        invariant Contents() == old(Contents()).(cw20 := cw20)
      {
        assert listing[..i + 1][..i] == listing[..i];
        cw20 := cw20[(contract, listing[i].0) := listing[i].1];
        total := total + listing[i].1;
      }
      assert listing[..|listing|] == listing;
      modules := SetTotals(modules, contract, total);
    }

    method SnapshotNativeStakers(m: string, listing: Listing) returns (ok: bool)
      modifies this
      ensures Apply(old(Contents()), SnapshotStakers(NativeBook, m, listing)) == if ok then Some(Contents()) else None
    {
      ok := true;
      if listing == [] {
        return;
      }
      var total := 0;
      for i := 0 to |listing|
        invariant total == ListTotal(listing[..i]) && native == UpsertAll(old(native), m, listing[..i])
        invariant Contents() == old(Contents()).(native := native) && ok && (i > 0 ==> m in modules)
      {
        assert listing[..i + 1][..i] == listing[..i];
        ok := UpsertNativeStaker(m, listing[i].0, listing[i].1);
        if !ok {
          return;
        }
        total := total + listing[i].1;
      }
      assert listing[..|listing|] == listing;
      modules := SetTotal(modules, m, total);
    }
  }
}
