/** The voting-module and staker passes of the one-shot DAO snapshot, in their order:
    src/sync/daodao_snapshot.ts. */
module DaoSnapshot {
  import opened Wrappers
  import opened DaoStaking
  import opened DaoTotals
  import opened DaoRuns
  import opened DaoEffects

  // The DAO contracts on record, by type.
  datatype Contracts = Contracts(
    cw4: seq<string>, cw20: seq<string>, cw721: seq<string>, native: seq<string>,
    groups: seq<string>, stakings: seq<string>)

  // What the chain answers at the snapshot height.
  datatype Answers = Answers(
    groupOf: string -> Option<string>, stakingOf: string -> Option<string>,
    membersOf: string -> Listing, stakersOf: string -> Listing)

  function Creates(kind: Kind, addresses: seq<string>, a: Answers): seq<Step> {
    seq(|addresses|, i requires 0 <= i < |addresses| =>
      Create(addresses[i], kind,
             if kind.Cw20Staked? then a.stakingOf(addresses[i]) else None,
             if kind.Cw4? then a.groupOf(addresses[i]) else None))
  }

  function MemberCopies(groups: seq<string>, a: Answers): seq<Step> {
    seq(|groups|, i requires 0 <= i < |groups| => SnapshotMembers(groups[i], a.membersOf(groups[i])))
  }

  function StakerCopies(book: Book, owners: seq<string>, a: Answers): seq<Step> {
    seq(|owners|, i requires 0 <= i < |owners| => SnapshotStakers(book, owners[i], a.stakersOf(owners[i])))
  }

  // Modules first, of all kinds; then the rows that refer to them.
  function Passes(c: Contracts, a: Answers): seq<Step> {
    Creates(Cw4, c.cw4, a) + Creates(Cw20Staked, c.cw20, a) + Creates(Cw721Staked, c.cw721, a)
    + Creates(NativeStaked, c.native, a)
    + MemberCopies(c.groups, a) + StakerCopies(Cw20Book, c.stakings, a) + StakerCopies(NativeBook, c.native, a)
  }

  // -------------------------------------------------------------------------
  // Pass by pass
  // -------------------------------------------------------------------------

  lemma {:induction false} RunConcat(t: Tables, a: seq<Step>, b: seq<Step>)
    ensures RunSteps(t, a + b) == if RunSteps(t, a).Some? then RunSteps(RunSteps(t, a).value, b) else None
  {
    hide Apply;
    if b == [] {
      assert a + b == a;
    } else {
      assert (a + b)[..|a + b| - 1] == a + b[..|b| - 1];
      RunConcat(t, a, b[..|b| - 1]);
    }
  }

  predicate Blank(t: Tables) {
    t.cw20 == map[] && t.native == map[] && t.members == map[]
  }

  // Modules stay, with their kinds.
  predicate KindsKept(t: Tables, after: Tables) {
    forall m :: m in t.modules ==> m in after.modules && after.modules[m].kind == t.modules[m].kind
  }

  lemma StillKept(t: Tables, m: Tables, after: Tables)
    requires KindsKept(t, m) && KindsKept(m, after)
    ensures KindsKept(t, after)
  {
  }

  lemma KeptAt(t: Tables, after: Tables, m: string)
    requires KindsKept(t, after) && m in t.modules
    ensures m in after.modules && after.modules[m].kind == t.modules[m].kind
  {
  }

  ghost predicate Good(t: Tables) {
    Typed(t) && Settled(t)
  }

  lemma NothingOwned(rows: Rows, owner: string)
    requires Owned(rows, owner) == map[]
    ensures SumOf(rows, owner) == 0
  {
  }

  lemma {:induction false} CreatePass(t: Tables, kind: Kind, addresses: seq<string>, a: Answers)
    requires Good(t) && Blank(t)
    ensures var r := RunSteps(t, Creates(kind, addresses, a));
            && r.Some? && Good(r.value) && Blank(r.value) && KindsKept(t, r.value)
            && forall m :: m in addresses && (m in t.modules ==> t.modules[m].kind == kind) ==>
                 m in r.value.modules && r.value.modules[m].kind == kind
    ensures forall m :: m in RunSteps(t, Creates(kind, addresses, a)).value.modules ==> m in t.modules || m in addresses
    decreases |addresses|
  {
    var steps := Creates(kind, addresses, a);
    if addresses == [] {
      assert steps == [];
    } else {
      var init := addresses[..|addresses| - 1];
      assert addresses == init + [addresses[|addresses| - 1]];
      var step := steps[|steps| - 1];
      assert steps == Creates(kind, init, a) + [step];
      assert step.address == addresses[|addresses| - 1] && step.kind == kind;
      assert (step.stakingContract.Some? ==> kind.Cw20Staked?) && (step.group.Some? ==> kind.Cw4?);
      hide Creates, Good, RunSteps, Apply;
      CreatePass(t, kind, init, a);
      RunMore(t, Creates(kind, init, a), step);
      CreateIsGood(RunSteps(t, Creates(kind, init, a)).value, step);
    }
  }

  lemma CreateIsGood(t: Tables, step: Step)
    requires Good(t) && Blank(t) && step.Create?
    requires (step.stakingContract.Some? ==> step.kind.Cw20Staked?) && (step.group.Some? ==> step.kind.Cw4?)
    ensures Apply(t, step).Some? && Good(Apply(t, step).value) && Blank(Apply(t, step).value)
    ensures KindsKept(t, Apply(t, step).value)
    ensures step.address in Apply(t, step).value.modules
    ensures step.address !in t.modules ==> Apply(t, step).value.modules[step.address].kind == step.kind
    ensures forall m :: m in Apply(t, step).value.modules ==> m in t.modules || m == step.address
  {
    forall owner ensures SumOf(t.cw20, owner) == 0 && SumOf(t.members, owner) == 0 {
      NothingOwned(t.cw20, owner);
      NothingOwned(t.members, owner);
    }
    StepSettles(t, step);
    hide Typed, Settled, SumOf;
  }

  lemma {:induction false} MembersPass(t: Tables, groups: seq<string>, a: Answers)
    requires Good(t) && forall g :: g in groups ==> Distinct(a.membersOf(g))
    ensures var r := RunSteps(t, MemberCopies(groups, a));
            && r.Some? && Good(r.value) && KindsKept(t, r.value)
            && r.value.cw20 == t.cw20 && r.value.native == t.native
    decreases |groups|
  {
    var steps := MemberCopies(groups, a);
    if groups == [] {
      assert steps == [];
    } else {
      var init, last := groups[..|groups| - 1], groups[|groups| - 1];
      assert groups == init + [last];
      var step := SnapshotMembers(last, a.membersOf(last));
      assert steps == MemberCopies(init, a) + [step];
      assert forall g :: g in init ==> g in groups;
      hide MemberCopies, Good, Distinct, RunSteps, Apply;
      MembersPass(t, init, a);
      RunMore(t, MemberCopies(init, a), step);
      MembersAreGood(RunSteps(t, MemberCopies(init, a)).value, last, a.membersOf(last));
    }
  }

  lemma MembersAreGood(t: Tables, group: string, listing: Listing)
    requires Good(t) && Distinct(listing)
    ensures var r := Apply(t, SnapshotMembers(group, listing));
            && r.Some? && Good(r.value) && KindsKept(t, r.value) && r.value.cw20 == t.cw20 && r.value.native == t.native
  {
    StepSettles(t, SnapshotMembers(group, listing));
    hide Typed, Settled, Distinct, UpsertAll, Without, ListTotal;
  }

  lemma {:induction false} StakersPass(t: Tables, book: Book, owners: seq<string>, a: Answers)
    requires Good(t) && forall o :: o in owners ==> Distinct(a.stakersOf(o)) && Owned(RowsOf(t, book), o) == map[]
    requires forall i, j :: 0 <= i < j < |owners| ==> owners[i] != owners[j]
    requires book.NativeBook? ==> forall o :: o in owners ==> o in t.modules && t.modules[o].kind == NativeStaked
    ensures var r := RunSteps(t, StakerCopies(book, owners, a));
            && r.Some? && Good(r.value) && KindsKept(t, r.value)
            && (book.Cw20Book? ==> r.value.native == t.native)
            && forall o :: o !in owners ==> Owned(RowsOf(r.value, book), o) == Owned(RowsOf(t, book), o)
    decreases |owners|
  {
    hide Good, Distinct, Owned, Apply;
    var steps := StakerCopies(book, owners, a);
    if owners == [] {
      assert steps == [];
    } else {
      var init, last := owners[..|owners| - 1], owners[|owners| - 1];
      assert owners == init + [last];
      assert last !in init && forall o :: o in init ==> o in owners;
      var step := SnapshotStakers(book, last, a.stakersOf(last));
      assert steps == StakerCopies(book, init, a) + [step];
      hide StakerCopies, RunSteps, KindsKept, RowsOf;
      StakersPass(t, book, init, a);
      RunMore(t, StakerCopies(book, init, a), step);
      var copied := RunSteps(t, StakerCopies(book, init, a)).value;
      if book.NativeBook? {
        KeptAt(t, copied, last);
      }
      CopyIsGood(copied, book, last, a.stakersOf(last));
      StillKept(t, copied, Apply(copied, step).value);
    }
  }

  lemma CopyIsGood(t: Tables, book: Book, owner: string, listing: Listing)
    requires Good(t) && Distinct(listing) && Owned(RowsOf(t, book), owner) == map[]
    requires book.NativeBook? ==> owner in t.modules && t.modules[owner].kind == NativeStaked
    ensures var r := Apply(t, SnapshotStakers(book, owner, listing));
            && r.Some? && Good(r.value) && KindsKept(t, r.value)
            && (book.Cw20Book? ==> r.value.native == t.native)
            && forall o :: o != owner ==> Owned(RowsOf(r.value, book), o) == Owned(RowsOf(t, book), o)
  {
    var step := SnapshotStakers(book, owner, listing);
    NothingUnlisted(RowsOf(t, book), owner, listing);
    UpsertAllFrame(RowsOf(t, book), owner, listing);
    assert Apply(t, step) == CopyStakers(t, book, owner, listing);
    StepSettles(t, step);
    hide Settled, Typed, UpsertAll, Owned, Unlisted, ListTotal;
  }

  // -------------------------------------------------------------------------
  // The whole snapshot
  // -------------------------------------------------------------------------

  // Contract addresses are keys of the instantiation table, and listings do not repeat an account.
  ghost predicate Sound(c: Contracts, a: Answers) {
    && (forall m :: m in c.native ==> m !in c.cw4 && m !in c.cw20 && m !in c.cw721)
    && (forall i, j :: 0 <= i < j < |c.native| ==> c.native[i] != c.native[j])
    && (forall i, j :: 0 <= i < j < |c.stakings| ==> c.stakings[i] != c.stakings[j])
    && (forall g :: g in c.groups ==> Distinct(a.membersOf(g)))
    && (forall o :: o in c.stakings || o in c.native ==> Distinct(a.stakersOf(o)))
  }

  /** On a fresh database the passes never refer to a row that is not there yet, and leave every voting
      module with the total of its rows. */
  lemma SnapshotSettles(c: Contracts, a: Answers)
    requires Sound(c, a)
    ensures RunSteps(NoRows, Passes(c, a)).Some? && Settled(RunSteps(NoRows, Passes(c, a)).value)
  {
    hide Distinct, Creates, MemberCopies, StakerCopies, Settled, Typed, RunSteps;
    assert Good(NoRows) by { FreshIsGood(); }
    CreatePass(NoRows, Cw4, c.cw4, a);
    var t1 := RunSteps(NoRows, Creates(Cw4, c.cw4, a)).value;
    CreatePass(t1, Cw20Staked, c.cw20, a);
    var t2 := RunSteps(t1, Creates(Cw20Staked, c.cw20, a)).value;
    CreatePass(t2, Cw721Staked, c.cw721, a);
    var t3 := RunSteps(t2, Creates(Cw721Staked, c.cw721, a)).value;
    CreatePass(t3, NativeStaked, c.native, a);
    var t4 := RunSteps(t3, Creates(NativeStaked, c.native, a)).value;
    assert forall m :: m in c.native ==> m in t4.modules && t4.modules[m].kind == NativeStaked;
    MembersPass(t4, c.groups, a);
    var t5 := RunSteps(t4, MemberCopies(c.groups, a)).value;
    assert forall o :: Owned(t5.cw20, o) == map[] && Owned(t5.native, o) == map[];
    StakersPass(t5, Cw20Book, c.stakings, a);
    var t6 := RunSteps(t5, StakerCopies(Cw20Book, c.stakings, a)).value;
    StakersPass(t6, NativeBook, c.native, a);
    var p1 := Creates(Cw4, c.cw4, a);
    var p2 := p1 + Creates(Cw20Staked, c.cw20, a);
    var p3 := p2 + Creates(Cw721Staked, c.cw721, a);
    var p4 := p3 + Creates(NativeStaked, c.native, a);
    var p5 := p4 + MemberCopies(c.groups, a);
    RunConcat(NoRows, p1, Creates(Cw20Staked, c.cw20, a));
    RunConcat(NoRows, p2, Creates(Cw721Staked, c.cw721, a));
    RunConcat(NoRows, p3, Creates(NativeStaked, c.native, a));
    RunConcat(NoRows, p4, MemberCopies(c.groups, a));
    RunConcat(NoRows, p5, StakerCopies(Cw20Book, c.stakings, a));
    RunConcat(NoRows, p5 + StakerCopies(Cw20Book, c.stakings, a), StakerCopies(NativeBook, c.native, a));
  }

  lemma FreshIsGood()
    ensures Good(NoRows)
  {
  }

  // -------------------------------------------------------------------------
  // What is there afterwards
  // -------------------------------------------------------------------------

  function ListedIf(listed: bool, listing: Listing): Listing {
    if listed then listing else []
  }

  // The module an address on record is, with what the chain answered for it.
  function Announced(c: Contracts, a: Answers, address: string): Links {
    if address in c.cw4 then Known(Cw4, None, a.groupOf(address))
    else if address in c.cw20 then Known(Cw20Staked, a.stakingOf(address), None)
    else if address in c.cw721 then Known(Cw721Staked, None, None)
    else if address in c.native then Known(NativeStaked, None, None)
    else Unknown
  }

  // The weight of a module by the chain's listings.
  function WeightOf(c: Contracts, a: Answers, address: string): int {
    match Announced(c, a, address)
    case Known(Cw4, _, Some(group)) => ListTotal(ListedIf(group in c.groups, a.membersOf(group)))
    case Known(Cw20Staked, Some(contract), _) => ListTotal(ListedIf(contract in c.stakings, a.stakersOf(contract)))
    case Known(NativeStaked, _, _) => ListTotal(a.stakersOf(address))
    case _ => 0
  }

  ghost predicate RowsCopied(c: Contracts, a: Answers, t: Tables) {
    && t.nfts == {}
    && (forall g :: Holds(t.members, g, ListedIf(g in c.groups, a.membersOf(g))))
    && (forall o :: Holds(t.cw20, o, ListedIf(o in c.stakings, a.stakersOf(o))))
    && (forall o :: Holds(t.native, o, ListedIf(o in c.native, a.stakersOf(o))))
  }

  ghost predicate ModulesMade(c: Contracts, a: Answers, t: Tables) {
    && (forall m :: LinksOf(t.modules, m) == Announced(c, a, m))
    && (forall m :: m in t.modules ==> t.modules[m].totalWeight == WeightOf(c, a, m))
  }

  lemma {:induction false} ListingSkips(steps: seq<Step>, more: seq<Step>, g: string)
    requires forall i :: 0 <= i < |more| ==> !Lists(more[i], g)
    ensures LastListing(steps + more, g) == LastListing(steps, g)
  {
    hide Lists;
    if more == [] {
      assert steps + more == steps;
    } else {
      assert (steps + more)[..|steps + more| - 1] == steps + more[..|more| - 1];
      ListingSkips(steps, more[..|more| - 1], g);
    }
  }

  lemma {:induction false} LinksSkip(steps: seq<Step>, more: seq<Step>, m: string)
    requires forall i :: 0 <= i < |more| ==> !more[i].Create? && !more[i].LinkStaking? && !more[i].LinkGroup?
    ensures LinksNow(steps + more, m) == LinksNow(steps, m)
  {
    if more == [] {
      assert steps + more == steps;
    } else {
      assert (steps + more)[..|steps + more| - 1] == steps + more[..|more| - 1];
      LinksSkip(steps, more[..|more| - 1], m);
    }
  }

  lemma {:induction false} ListingOfCopies(steps: seq<Step>, groups: seq<string>, a: Answers, g: string)
    ensures LastListing(steps + MemberCopies(groups, a), g) ==
            if g in groups && a.membersOf(g) != [] then a.membersOf(g) else LastListing(steps, g)
  {
    var copies := MemberCopies(groups, a);
    if groups == [] {
      assert steps + copies == steps;
    } else {
      var init, last := groups[..|groups| - 1], groups[|groups| - 1];
      assert groups == init + [last];
      assert (steps + copies)[..|steps + copies| - 1] == steps + MemberCopies(init, a);
      ListingOfCopies(steps, init, a, g);
    }
  }

  function Made(kind: Kind, a: Answers, m: string): Links {
    Known(kind, if kind.Cw20Staked? then a.stakingOf(m) else None, if kind.Cw4? then a.groupOf(m) else None)
  }

  lemma {:induction false} LinksOfCreates(steps: seq<Step>, kind: Kind, addresses: seq<string>, a: Answers, m: string)
    ensures LinksNow(steps + Creates(kind, addresses, a), m) ==
            if LinksNow(steps, m).Unknown? && m in addresses then Made(kind, a, m) else LinksNow(steps, m)
  {
    var creates := Creates(kind, addresses, a);
    if addresses == [] {
      assert steps + creates == steps;
    } else {
      var init, last := addresses[..|addresses| - 1], addresses[|addresses| - 1];
      assert addresses == init + [last];
      var before, step := steps + Creates(kind, init, a), creates[|creates| - 1];
      assert steps + creates == before + [step];
      hide Creates, LinksNow;
      LinksOfCreates(steps, kind, init, a, m);
      LinksNext(before, step, m);
    }
  }

  lemma LinksNext(steps: seq<Step>, step: Step, m: string)
    ensures LinksNow(steps + [step], m) == LinksAfter(LinksNow(steps, m), step, m)
  {
    assert (steps + [step])[..|steps|] == steps;
  }

  lemma PassesMake(c: Contracts, a: Answers, m: string)
    ensures LinksNow(Passes(c, a), m) == Announced(c, a, m)
  {
    var p1 := Creates(Cw4, c.cw4, a);
    var p2 := p1 + Creates(Cw20Staked, c.cw20, a);
    var p3 := p2 + Creates(Cw721Staked, c.cw721, a);
    var p4 := p3 + Creates(NativeStaked, c.native, a);
    var p5 := p4 + MemberCopies(c.groups, a);
    var p6 := p5 + StakerCopies(Cw20Book, c.stakings, a);
    assert [] + p1 == p1;
    LinksOfCreates([], Cw4, c.cw4, a, m);
    LinksOfCreates(p1, Cw20Staked, c.cw20, a, m);
    LinksOfCreates(p2, Cw721Staked, c.cw721, a, m);
    LinksOfCreates(p3, NativeStaked, c.native, a, m);
    LinksSkip(p4, MemberCopies(c.groups, a), m);
    LinksSkip(p5, StakerCopies(Cw20Book, c.stakings, a), m);
    LinksSkip(p6, StakerCopies(NativeBook, c.native, a), m);
    assert LinksNow([], m) == Unknown;
    hide LinksNow, Creates, MemberCopies, StakerCopies;
  }

  lemma PassesList(c: Contracts, a: Answers, g: string)
    ensures LastListing(Passes(c, a), g) == ListedIf(g in c.groups, a.membersOf(g))
  {
    var p1 := Creates(Cw4, c.cw4, a);
    var p2 := p1 + Creates(Cw20Staked, c.cw20, a);
    var p3 := p2 + Creates(Cw721Staked, c.cw721, a);
    var p4 := p3 + Creates(NativeStaked, c.native, a);
    var p5 := p4 + MemberCopies(c.groups, a);
    var p6 := p5 + StakerCopies(Cw20Book, c.stakings, a);
    assert [] + p1 == p1;
    ListingSkips([], p1, g);
    ListingSkips(p1, Creates(Cw20Staked, c.cw20, a), g);
    ListingSkips(p2, Creates(Cw721Staked, c.cw721, a), g);
    ListingSkips(p3, Creates(NativeStaked, c.native, a), g);
    ListingOfCopies(p4, c.groups, a, g);
    ListingSkips(p5, StakerCopies(Cw20Book, c.stakings, a), g);
    ListingSkips(p6, StakerCopies(NativeBook, c.native, a), g);
    assert LastListing([], g) == [];
    hide LastListing, Creates, MemberCopies, StakerCopies;
  }

  // Steps that write no staker rows, and steps that write no NFT rows.
  lemma {:induction false} NoStakers(t: Tables, steps: seq<Step>)
    requires RunSteps(t, steps).Some? && forall i :: 0 <= i < |steps| ==> steps[i].Create? || steps[i].SnapshotMembers?
    ensures var after := RunSteps(t, steps).value; after.cw20 == t.cw20 && after.native == t.native
  {
    hide Apply, Leaves, Refused;
    if steps != [] {
      var init, last := steps[..|steps| - 1], steps[|steps| - 1];
      NoStakers(t, init);
      OnlyModules(RunSteps(t, init).value, last);
    }
  }

  lemma OnlyModules(t: Tables, step: Step)
    requires Apply(t, step).Some? && (step.Create? || step.SnapshotMembers?)
    ensures Apply(t, step).value.cw20 == t.cw20 && Apply(t, step).value.native == t.native
  {
    StepLeaves(t, step);
    hide Apply;
  }

  lemma {:induction false} NoNfts(t: Tables, steps: seq<Step>)
    requires RunSteps(t, steps).Some? && forall i :: 0 <= i < |steps| ==> !steps[i].NftEvent?
    ensures RunSteps(t, steps).value.nfts == t.nfts
  {
    hide Apply, Leaves, Refused;
    if steps != [] {
      var init, last := steps[..|steps| - 1], steps[|steps| - 1];
      NoNfts(t, init);
      KeepsNfts(RunSteps(t, init).value, last);
    }
  }

  lemma KeepsNfts(t: Tables, step: Step)
    requires Apply(t, step).Some? && !step.NftEvent?
    ensures Apply(t, step).value.nfts == t.nfts
  {
    StepLeaves(t, step);
    hide Apply;
  }

  lemma {:induction false} ListedTwice(listing: Listing, x: string, otherwise: int)
    ensures Listed(listing, x, otherwise) == if IsListed(listing, x) then Listed(listing, x, 0) else otherwise
  {
    if listing != [] {
      var init, last := listing[..|listing| - 1], listing[|listing| - 1];
      ListedTwice(init, x, otherwise);
      assert listing == init + [last];
      ListedMore(init, last);
      hide IsListed;
    }
  }

  // A listing copied over no rows, or over its own.
  lemma CopyHolds(before: Rows, owner: string, listing: Listing, after: Rows)
    requires TakesOver(before, owner, listing, after)
    requires Holds(before, owner, listing) || Holds(before, owner, [])
    ensures Holds(after, owner, listing)
    ensures forall o, l :: o != owner && Holds(before, o, l) ==> Holds(after, o, l)
  {
    forall x
      ensures ((owner, x) in after <==> IsListed(listing, x)) && Amount(after, owner, x) == Listed(listing, x, 0)
    {
      ListedTwice(listing, x, Amount(before, owner, x));
    }
    forall o, l | o != owner && Holds(before, o, l)
      ensures Holds(after, o, l)
    {
      hide IsListed, Listed;
      assert forall x :: (o, x) in after <==> (o, x) in before;
    }
  }

  // One copy, in its own book or in the other.
  lemma OneCopy(t: Tables, book: Book, owner: string, listing: Listing, other: Book)
    requires Apply(t, SnapshotStakers(book, owner, listing)).Some?
    ensures var after := Apply(t, SnapshotStakers(book, owner, listing)).value;
            if other == book then TakesOver(RowsOf(t, book), owner, listing, RowsOf(after, book))
            else RowsOf(after, other) == RowsOf(t, other)
  {
    StepLeaves(t, SnapshotStakers(book, owner, listing));
    NothingListed(RowsOf(t, book), owner);
    hide Apply, TakesOver;
  }

  lemma NothingListed(rows: Rows, owner: string)
    ensures TakesOver(rows, owner, [], rows)
  {
  }

  ghost predicate HoldAll(rows: Rows, owners: seq<string>, a: Answers) {
    forall o :: Holds(rows, o, ListedIf(o in owners, a.stakersOf(o)))
  }

  lemma {:induction false} StakersCopied(t: Tables, book: Book, owners: seq<string>, a: Answers)
    requires RunSteps(t, StakerCopies(book, owners, a)).Some? && RowsOf(t, book) == map[]
    ensures var after := RunSteps(t, StakerCopies(book, owners, a)).value;
            && HoldAll(RowsOf(after, book), owners, a)
            && forall other: Book :: other != book ==> RowsOf(after, other) == RowsOf(t, other)
  {
    hide Apply, RowsOf, HoldAll;
    var steps := StakerCopies(book, owners, a);
    if owners == [] {
      NoneHeld(a);
    } else {
      var init, last := owners[..|owners| - 1], owners[|owners| - 1];
      assert owners == init + [last];
      assert steps[..|steps| - 1] == StakerCopies(book, init, a);
      StakersCopied(t, book, init, a);
      var before := RunSteps(t, StakerCopies(book, init, a)).value;
      var after := RunSteps(t, steps).value;
      OneCopy(before, book, last, a.stakersOf(last), book);
      OneCopy(before, book, last, a.stakersOf(last), if book.Cw20Book? then NativeBook else Cw20Book);
      HoldMore(RowsOf(before, book), init, a, last, RowsOf(after, book));
    }
  }

  lemma NoneHeld(a: Answers)
    ensures HoldAll(map[], [], a)
  {
  }

  lemma HoldMore(before: Rows, owners: seq<string>, a: Answers, last: string, after: Rows)
    requires HoldAll(before, owners, a) && TakesOver(before, last, a.stakersOf(last), after)
    ensures HoldAll(after, owners + [last], a)
  {
    hide TakesOver, Holds;
    assert Holds(before, last, ListedIf(last in owners, a.stakersOf(last)));
    CopyHolds(before, last, a.stakersOf(last), after);
    forall o
      ensures Holds(after, o, ListedIf(o in owners + [last], a.stakersOf(o)))
    {
      assert Holds(before, o, ListedIf(o in owners, a.stakersOf(o)));
      assert o != last ==> (o in owners + [last] <==> o in owners);
    }
  }

  /** After the snapshot on a fresh database the rows are the chain's listings, account by account, and no others;
      the modules are those on record, each linked and joined as the chain answered and with the total of its
      listing as weight. */
  lemma SnapshotLeaves(c: Contracts, a: Answers)
    requires Sound(c, a)
    ensures RunSteps(NoRows, Passes(c, a)).Some?
    ensures RowsCopied(c, a, RunSteps(NoRows, Passes(c, a)).value)
    ensures ModulesMade(c, a, RunSteps(NoRows, Passes(c, a)).value)
  {
    SnapshotSettles(c, a);
    SnapshotRows(c, a);
    SnapshotModules(c, a);
  }

  lemma SnapshotRows(c: Contracts, a: Answers)
    requires RunSteps(NoRows, Passes(c, a)).Some?
    ensures RowsCopied(c, a, RunSteps(NoRows, Passes(c, a)).value)
  {
    var s20, sn := StakerCopies(Cw20Book, c.stakings, a), StakerCopies(NativeBook, c.native, a);
    var p5 := Creates(Cw4, c.cw4, a) + Creates(Cw20Staked, c.cw20, a) + Creates(Cw721Staked, c.cw721, a)
              + Creates(NativeStaked, c.native, a) + MemberCopies(c.groups, a);
    RunConcat(NoRows, p5 + s20, sn);
    RunConcat(NoRows, p5, s20);
    NoStakers(NoRows, p5);
    NoNfts(NoRows, p5 + s20 + sn);
    var t5 := RunSteps(NoRows, p5).value;
    StakersCopied(t5, Cw20Book, c.stakings, a);
    StakersCopied(RunSteps(t5, s20).value, NativeBook, c.native, a);
    var t := RunSteps(NoRows, Passes(c, a)).value;
    hide RunSteps, Creates, MemberCopies, StakerCopies, Holds;
    assert RowsOf(t, Cw20Book) == t.cw20 && RowsOf(t, NativeBook) == t.native;
    forall g
      ensures Holds(t.members, g, ListedIf(g in c.groups, a.membersOf(g)))
    {
      MembersAndLinks(Passes(c, a), g, "");
      PassesList(c, a, g);
    }
  }

  lemma SnapshotModules(c: Contracts, a: Answers)
    requires Sound(c, a) && RunSteps(NoRows, Passes(c, a)).Some?
    requires Settled(RunSteps(NoRows, Passes(c, a)).value) && RowsCopied(c, a, RunSteps(NoRows, Passes(c, a)).value)
    ensures ModulesMade(c, a, RunSteps(NoRows, Passes(c, a)).value)
  {
    var t := RunSteps(NoRows, Passes(c, a)).value;
    forall m: string
      ensures LinksOf(t.modules, m) == Announced(c, a, m)
      ensures m in t.modules ==> t.modules[m].totalWeight == WeightOf(c, a, m)
    {
      hide RunSteps, Passes, Announced, WeightOf, RowsCopied, Settled, Sound, LinksOf;
      MembersAndLinks(Passes(c, a), "", m);
      PassesMake(c, a, m);
      if m in t.modules {
        ModuleWeight(c, a, m, t);
      }
    }
  }

  lemma ModuleWeight(c: Contracts, a: Answers, m: string, t: Tables)
    requires Sound(c, a) && RunSteps(NoRows, Passes(c, a)) == Some(t)
    requires Settled(t) && RowsCopied(c, a, t) && m in t.modules && LinksOf(t.modules, m) == Announced(c, a, m)
    ensures t.modules[m].totalWeight == WeightOf(c, a, m)
  {
    hide RunSteps, Passes, Holds, Distinct, SumOf, ListTotal;
    EmptyIsDistinct();
    assert NftsOf({}, m) == {};
    assert Right(t, m);
    match LinksOf(t.modules, m) {
      case Known(Cw4, _, Some(group)) => HeldTotal(t.members, group, ListedIf(group in c.groups, a.membersOf(group)));
      case Known(Cw20Staked, Some(contract), _) =>
        HeldTotal(t.cw20, contract, ListedIf(contract in c.stakings, a.stakersOf(contract)));
      case Known(NativeStaked, _, _) => HeldTotal(t.native, m, a.stakersOf(m));
      case Known(Cw721Staked, _, _) =>
      case _ => PassesArePlain(c, a, m);
    }
  }

  // Steps that set no total of a module with neither contract nor group.
  predicate Plain(step: Step, m: string) {
    step.Create? || step.SnapshotMembers? || (step.SnapshotStakers? && (step.book.Cw20Book? || step.owner != m))
  }

  lemma PassesArePlain(c: Contracts, a: Answers, m: string)
    requires RunSteps(NoRows, Passes(c, a)).Some? && m !in c.native
    ensures var modules := RunSteps(NoRows, Passes(c, a)).value.modules;
            m in modules && modules[m].stakingContract.None? && modules[m].group.None? ==> modules[m].totalWeight == 0
  {
    var steps := Passes(c, a);
    assert forall i :: 0 <= i < |steps| ==> Plain(steps[i], m);
    hide Passes, Plain;
    PlainTotal(steps, m);
  }

  lemma {:induction false} PlainTotal(steps: seq<Step>, m: string)
    requires RunSteps(NoRows, steps).Some? && forall i :: 0 <= i < |steps| ==> Plain(steps[i], m)
    ensures var modules := RunSteps(NoRows, steps).value.modules;
            m in modules && modules[m].stakingContract.None? && modules[m].group.None? ==> modules[m].totalWeight == 0
  {
    hide Apply, Leaves, Refused, Plain;
    if steps != [] {
      var init, last := steps[..|steps| - 1], steps[|steps| - 1];
      PlainTotal(init, m);
      PlainStep(RunSteps(NoRows, init).value, last, m);
    }
  }

  lemma PlainStep(t: Tables, step: Step, m: string)
    requires Plain(step, m) && Apply(t, step).Some?
    requires m in t.modules && t.modules[m].stakingContract.None? && t.modules[m].group.None? ==>
               t.modules[m].totalWeight == 0
    ensures var modules := Apply(t, step).value.modules;
            m in modules && modules[m].stakingContract.None? && modules[m].group.None? ==> modules[m].totalWeight == 0
  {
    StepLeaves(t, step);
    hide Apply, TakesOver, GroupLeaves, ListTotal;
  }

  // -------------------------------------------------------------------------
  // The passes, run on the tables
  // -------------------------------------------------------------------------

  lemma FailsForGood(t: Tables, steps: seq<Step>, i: nat)
    requires i <= |steps| && RunSteps(t, steps[..i]).None?
    ensures RunSteps(t, steps).None?
  {
    assert steps == steps[..i] + steps[i..];
    RunConcat(t, steps[..i], steps[i..]);
  }

  method CreateModules(tables: DaoTables, kind: Kind, addresses: seq<string>, a: Answers)
    modifies tables
    ensures RunSteps(old(tables.Contents()), Creates(kind, addresses, a)) == Some(tables.Contents())
  {
    ghost var steps := Creates(kind, addresses, a);
    for i := 0 to |addresses|
      invariant RunSteps(old(tables.Contents()), steps[..i]) == Some(tables.Contents())
    {
      tables.CreateVotingModule(addresses[i], kind,
                                if kind.Cw20Staked? then a.stakingOf(addresses[i]) else None,
                                if kind.Cw4? then a.groupOf(addresses[i]) else None);
      assert steps[..i + 1] == steps[..i] + [steps[i]];
      RunMore(old(tables.Contents()), steps[..i], steps[i]);
    }
    assert steps[..|addresses|] == steps;
  }

  method CopyMembers(tables: DaoTables, groups: seq<string>, a: Answers) returns (ok: bool)
    modifies tables
    ensures RunSteps(old(tables.Contents()), MemberCopies(groups, a)) == if ok then Some(tables.Contents()) else None
  {
    ghost var steps := MemberCopies(groups, a);
    for i := 0 to |groups|
      invariant RunSteps(old(tables.Contents()), steps[..i]) == Some(tables.Contents())
    {
      ok := tables.SnapshotCw4Members(groups[i], a.membersOf(groups[i]));
      assert steps[..i + 1] == steps[..i] + [steps[i]];
      RunMore(old(tables.Contents()), steps[..i], steps[i]);
      if !ok {
        FailsForGood(old(tables.Contents()), steps, i + 1);
        return;
      }
    }
    assert steps[..|groups|] == steps;
    ok := true;
  }

  method CopyAllStakers(tables: DaoTables, book: Book, owners: seq<string>, a: Answers) returns (ok: bool)
    modifies tables
    ensures RunSteps(old(tables.Contents()), StakerCopies(book, owners, a)) ==
            if ok then Some(tables.Contents()) else None
  {
    ghost var steps := StakerCopies(book, owners, a);
    for i := 0 to |owners|
      invariant RunSteps(old(tables.Contents()), steps[..i]) == Some(tables.Contents())
    {
      ok := true;
      if book.Cw20Book? {
        tables.SnapshotCw20Stakers(owners[i], a.stakersOf(owners[i]));
      } else {
        ok := tables.SnapshotNativeStakers(owners[i], a.stakersOf(owners[i]));
      }
      assert steps[..i + 1] == steps[..i] + [steps[i]];
      RunMore(old(tables.Contents()), steps[..i], steps[i]);
      if !ok {
        FailsForGood(old(tables.Contents()), steps, i + 1);
        return;
      }
    }
    assert steps[..|owners|] == steps;
    ok := true;
  }

  /** The passes in the order of the code. They fail exactly when a pass cannot be applied, and on a
      fresh database never. */
  method RunSnapshot(tables: DaoTables, c: Contracts, a: Answers) returns (ok: bool)
    modifies tables
    ensures RunSteps(old(tables.Contents()), Passes(c, a)) == if ok then Some(tables.Contents()) else None
    ensures old(tables.Contents()) == NoRows && Sound(c, a) ==>
              ok && Settled(tables.Contents())
              && RowsCopied(c, a, tables.Contents()) && ModulesMade(c, a, tables.Contents())
  {
    hide RunSteps, Creates, MemberCopies, StakerCopies, Settled, Sound, RowsCopied, ModulesMade;
    ghost var t := tables.Contents();
    if old(tables.Contents()) == NoRows && Sound(c, a) {
      SnapshotSettles(c, a);
      SnapshotLeaves(c, a);
    }
    CreateModules(tables, Cw4, c.cw4, a);
    ghost var done := Creates(Cw4, c.cw4, a);
    CreateModules(tables, Cw20Staked, c.cw20, a);
    RunConcat(t, done, Creates(Cw20Staked, c.cw20, a));
    done := done + Creates(Cw20Staked, c.cw20, a);
    CreateModules(tables, Cw721Staked, c.cw721, a);
    RunConcat(t, done, Creates(Cw721Staked, c.cw721, a));
    done := done + Creates(Cw721Staked, c.cw721, a);
    CreateModules(tables, NativeStaked, c.native, a);
    RunConcat(t, done, Creates(NativeStaked, c.native, a));
    done := done + Creates(NativeStaked, c.native, a);
    ok := CopyMembers(tables, c.groups, a);
    RunConcat(t, done, MemberCopies(c.groups, a));
    done := done + MemberCopies(c.groups, a);
    RunConcat(t, done, StakerCopies(Cw20Book, c.stakings, a));
    RunConcat(t, done + StakerCopies(Cw20Book, c.stakings, a), StakerCopies(NativeBook, c.native, a));
    if ok {
      ok := CopyAllStakers(tables, Cw20Book, c.stakings, a);
    }
    if ok {
      ok := CopyAllStakers(tables, NativeBook, c.native, a);
    }
  }
}
