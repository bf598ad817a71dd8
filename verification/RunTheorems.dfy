/** The run-level theorems about the block loop: over every sequence of failures, crashes and restarts. */
module RunTheorems {
  import opened Transactions
  import opened BlockLoop
  import opened BlockRuns

  // -------------------------------------------------------------------------
  // One block try, one step, every run
  // -------------------------------------------------------------------------

  lemma DaoTry(cfg: Config, d: Durable, h: nat, w: DaoWork)
    requires AtBlock(cfg, d, h)
    ensures var r := EnsureDao(cfg, d, h, w);
            && AtBlock(cfg, r.durable, h) && BlockHeights(r.durable.history) == BlockHeights(d.history)
            && r.durable.db.height == d.db.height
            && (r.ok ==> cfg.daoCutoff == 0 || h < cfg.daoCutoff || Completed(r.durable.db.daoState))
  {
    hide Try, DurableOk, MayIndex;
    if cfg.daoCutoff != 0 && h >= cfg.daoCutoff && !w.stateReadFails && !Completed(d.db.daoState) {
      var c := DaoCommit(h, w);
      TryTellsTheTruth(cfg, d, c);
      if Try(cfg, d, c).ok {
        SnapshotPending(cfg, d);
        DaoCommitKeeps(cfg, d, h, w);
        SnapshotHeights(cfg, d, h, c);
        DaoEffect(d.db, h, w);
      }
    }
  }

  lemma SnapshotPending(cfg: Config, d: Durable)
    requires DurableOk(cfg, d)
    ensures Completed(d.db.daoState) <==> d.db.daoState.Some?
    ensures Completed(d.db.v7State) <==> d.db.v7State.Some?
  {
    hide Replay, AllClean, InOrder, SnapshotOk, NoLegacyGap, DaoWritesOk, BlockHeights, Taken;
  }

  lemma SnapshotHeights(cfg: Config, d: Durable, h: nat, c: Commit)
    requires DurableOk(cfg, d) && Clean(OpsOf(cfg, c)) && !c.BlockCommit?
    ensures BlockHeights(Extended(cfg, d, c).history) == BlockHeights(d.history)
  {
    ExtendedHistory(cfg, d, c);
  }

  lemma V7Try(cfg: Config, d: Durable, h: nat, w: V7Work)
    requires AtBlock(cfg, d, h)
    ensures var r := EnsureV7(cfg, d, h, w);
            && AtBlock(cfg, r.durable, h) && BlockHeights(r.durable.history) == BlockHeights(d.history)
            && r.durable.db.height == d.db.height && r.durable.db.daoState == d.db.daoState
            && (r.ok ==> cfg.v7Upgrade == 0 || h < cfg.v7Upgrade || Completed(r.durable.db.v7State))
  {
    hide Try, DurableOk, MayIndex;
    if cfg.v7Upgrade != 0 && h >= cfg.v7Upgrade && !w.stateReadFails && !Completed(d.db.v7State) {
      var c := V7Commit(h, w);
      TryTellsTheTruth(cfg, d, c);
      if Try(cfg, d, c).ok {
        SnapshotPending(cfg, d);
        V7CommitKeeps(cfg, d, h, w);
        SnapshotHeights(cfg, d, h, c);
        V7Effect(cfg, d.db, w);
      }
    }
  }

  // Where a try may leave things: nothing indexed and block h still next, or block h added.
  ghost predicate TriedBlock(cfg: Config, d: Durable, h: nat, r: BlockTry) {
    && DurableOk(cfg, r.durable)
    && if r.durable.db.height == d.db.height && BlockHeights(r.durable.history) == BlockHeights(d.history)
       then r.verdict != Indexed && AtBlock(cfg, r.durable, h)
       else r.verdict != Failed && r.durable.db.height == h
            && BlockHeights(r.durable.history) == BlockHeights(d.history) + [h]
  }

  lemma {:induction false} TryBlockKeeps(cfg: Config, d: Durable, h: nat, t: Tick)
    requires AtBlock(cfg, d, h) && t.Ready? && t.block.late == []
    ensures TriedBlock(cfg, d, h, TryBlock(cfg, d, h, t))
  {
    hide EnsureDao, EnsureV7, Try, DurableOk, MayIndex, BlockHeights;
    DaoTry(cfg, d, h, t.dao);
    var d1 := EnsureDao(cfg, d, h, t.dao).durable;
    V7Try(cfg, d1, h, t.v7);
    var d2 := EnsureV7(cfg, d1, h, t.v7).durable;
    var c := BlockCommit(h, t.block);
    TryTellsTheTruth(cfg, d2, c);
    if Try(cfg, d2, c).ok && Clean(OpsOf(cfg, c)) {
      if (cfg.daoCutoff == 0 || h < cfg.daoCutoff || Completed(d2.db.daoState))
         && (cfg.v7Upgrade == 0 || h < cfg.v7Upgrade || Completed(d2.db.v7State)) {
        BlockCommitKeeps(cfg, d2, h, t.block);
      }
    }
  }

  function Starts(steps: seq<Step>): nat {
    if steps == [] then 0 else Starts(steps[..|steps| - 1]) + if steps[|steps| - 1].Start? then 1 else 0
  }

  predicate ProcessOk(s: System) {
    && s.idle <= 104
    && (s.process.Up? ==>
          && MayIndex(BlockHeights(s.durable.history), s.durable.db.height, s.process.currentBlock)
          && s.process.count <= 25 && s.process.errorCount <= 3
          && s.idle <= 26 * s.process.errorCount + s.process.count)
  }

  // Block 1 is committed at most once for each process start at which it was still next.
  predicate ReplaysCovered(s: System, starts: nat) {
    Replays(BlockHeights(s.durable.history), s.durable.db.height)
    + (if s.process.Up? && s.process.currentBlock == 1 then 1 else 0) <= starts
  }

  ghost predicate SystemOk(cfg: Config, s: System, starts: nat) {
    DurableOk(cfg, s.durable) && ProcessOk(s) && ReplaysCovered(s, starts)
  }

  lemma StartKeeps(cfg: Config, s: System, starts: nat)
    requires SystemOk(cfg, s, starts)
    ensures SystemOk(cfg, Started(s), starts + 1)
  {
    hide Replay, BlockHeights, Taken, DaoOk, V7Ok, AllClean, SnapshotOk;
  }

  lemma LoopKeeps(cfg: Config, s: System, t: Tick, starts: nat)
    requires SystemOk(cfg, s, starts) && s.process.Up?
    requires t.Ready? ==> t.block.late == []
    ensures SystemOk(cfg, Iterate(cfg, s, t), starts)
  {
    hide TryBlock, DurableOk, BlockHeights, MayIndex, TriedBlock, Conclude;
    if t.Ready? {
      TryBlockKeeps(cfg, s.durable, s.process.currentBlock, t);
      ConcludeKeeps(cfg, s, TryBlock(cfg, s.durable, s.process.currentBlock, t), starts);
    }
  }

  lemma ConcludeKeeps(cfg: Config, s: System, r: BlockTry, starts: nat)
    requires SystemOk(cfg, s, starts) && s.process.Up?
    requires TriedBlock(cfg, s.durable, s.process.currentBlock, r)
    ensures SystemOk(cfg, Conclude(s, r), starts)
  {
    hide BlockHeights, Replay, AllClean, SnapshotOk, DaoOk, V7Ok;
    var heights, after := BlockHeights(s.durable.history), BlockHeights(r.durable.history);
    var h, top := s.process.currentBlock, s.durable.db.height;
    assert top >= 1;
    hide DurableOk;
    if r.durable.db.height == top && after == heights {
    } else {
      assert |after| == |heights| + 1;
      assert Replays(after, h) == if h == 1 then Replays(heights, top) + 1 else Replays(heights, top);
    }
  }

  lemma RunNext(cfg: Config, s: System, steps: seq<Step>, step: Step)
    ensures Run(cfg, s, steps + [step]) == Next(cfg, Run(cfg, s, steps), step)
  {
    assert (steps + [step])[..|steps|] == steps;
  }

  lemma FreshOk(cfg: Config)
    ensures SystemOk(cfg, Fresh, 0)
  {
  }

  lemma {:induction false} EveryRun(cfg: Config, steps: seq<Step>)
    requires NoStrays(steps)
    ensures SystemOk(cfg, Run(cfg, Fresh, steps), Starts(steps))
  {
    if steps == [] {
      FreshOk(cfg);
    } else {
      var init, step := steps[..|steps| - 1], steps[|steps| - 1];
      EveryRun(cfg, init);
      var s := Run(cfg, Fresh, init);
      match step {
        case Start => StartKeeps(cfg, s, Starts(init));
        case Loop(t) =>
          if s.process.Up? {
            LoopKeeps(cfg, s, t, Starts(init));
          }
      }
    }
  }

  // -------------------------------------------------------------------------
  // Theorems
  // -------------------------------------------------------------------------

  function Occurrences(heights: seq<nat>, h: nat): nat {
    if heights == [] then 0
    else Occurrences(heights[..|heights| - 1], h) + if heights[|heights| - 1] == h then 1 else 0
  }

  lemma {:induction false} NotYetReached(heights: seq<nat>, h: nat)
    requires forall i :: 0 <= i < |heights| ==> heights[i] != h
    ensures Occurrences(heights, h) == 0
  {
    if heights != [] {
      NotYetReached(heights[..|heights| - 1], h);
    }
  }

  lemma {:induction false} OnceEach(heights: seq<nat>, top: nat, h: nat)
    requires InOrder(heights, top) && h >= 2
    ensures Occurrences(heights, h) == if h <= top then 1 else 0
    decreases |heights|
  {
    if h >= top || top == 1 {
      NotYetReached(if h == top then heights[..|heights| - 1] else heights, h);
    } else {
      OnceEach(heights[..|heights| - 1], top - 1, h);
    }
  }

  /** Exactly once, in order. Over every run the committed database is the in-order replay of the
      committed transactions; their blocks are block 1, then 2, 3, ... up to the stored height, each
      of the latter exactly once; block 1 comes again only by a restart while the stored height is 1. */
  lemma {:induction false} ExactlyOnce(cfg: Config, steps: seq<Step>)
    requires NoStrays(steps)
    ensures var d := Run(cfg, Fresh, steps).durable;
            var heights := BlockHeights(d.history);
            && d.db == Replay(cfg, d.history)
            && InOrder(heights, d.db.height)
            && Replays(heights, d.db.height) <= Starts(steps)
            && forall h: nat :: h >= 2 ==> Occurrences(heights, h) == if h <= d.db.height then 1 else 0
  {
    EveryRun(cfg, steps);
    var d := Run(cfg, Fresh, steps).durable;
    forall h: nat | h >= 2
      ensures Occurrences(BlockHeights(d.history), h) == if h <= d.db.height then 1 else 0
    {
      OnceEach(BlockHeights(d.history), d.db.height, h);
    }
  }

  /** Nothing is committed, by a block or by a snapshot, unless every statement in it succeeded,
      including those whose error a handler would have swallowed. */
  lemma {:induction false} CommittedMeansSucceeded(cfg: Config, steps: seq<Step>)
    requires NoStrays(steps)
    ensures AllClean(cfg, Run(cfg, Fresh, steps).durable.history)
  {
    EveryRun(cfg, steps);
  }

  /** Both snapshots. Each commits at most once, at the very height it is due at, and before any block
      from that height on; by the time such a block is in, it has been committed, which is also what
      its stored state says. */
  lemma {:induction false} SnapshotsOnce(cfg: Config, steps: seq<Step>, s: Snapshot)
    requires NoStrays(steps) && DueAt(cfg, s) > 0
    ensures var d := Run(cfg, Fresh, steps).durable;
            && Taken(d.history, s) <= 1
            && TakenInTime(cfg, d.history, s)
            && (BlockHeights(d.history) != [] && d.db.height >= DueAt(cfg, s) ==> Taken(d.history, s) == 1)
            && (Taken(d.history, s) == 1 <==> Completed(StateOf(d.db, s)))
  {
    EveryRun(cfg, steps);
    hide Replay, BlockHeights, Taken, AllClean, InOrder, TakenInTime, TakenBefore, DaoWritesOk, NoLegacyGap, Run,
         NoStrays;
  }

  /** Writes to DAO tables made by events start at the cutoff and come after all writes of the snapshot. */
  lemma {:induction false} DaoWritesInOrder(cfg: Config, steps: seq<Step>)
    requires NoStrays(steps)
    ensures DaoWritesOk(cfg.daoCutoff, Run(cfg, Fresh, steps).durable.db.daoWrites)
  {
    EveryRun(cfg, steps);
  }

  /** Retries are bounded: at every loop head the iterations since the last indexed block are at most
      26 for each error plus the empty fetches since, so at most 104 pass before the process ends. */
  lemma {:induction false} BoundedIdleness(cfg: Config, steps: seq<Step>)
    requires NoStrays(steps)
    ensures var s := Run(cfg, Fresh, steps);
            && s.idle <= 104
            && (s.process.Up? ==>
                  && s.process.count <= 25 && s.process.errorCount <= 3
                  && s.idle <= 26 * s.process.errorCount + s.process.count <= 103)
  {
    EveryRun(cfg, steps);
  }

  function EmptyFetches(n: nat): seq<Step> {
    seq(n, _ => Loop(NotYet))
  }

  lemma CountsOn(n: nat)
    requires n > 0
    ensures if (n - 1) % 26 == 25 then n % 26 == 0 && n / 26 == (n - 1) / 26 + 1
            else n % 26 == (n - 1) % 26 + 1 && n / 26 == (n - 1) / 26
  {
  }

  /** The bound is reached: a process that meets nothing but empty fetches counts to 26 for each error and
      goes down at its 104th, no sooner. */
  lemma {:induction false} EmptyFetchesCount(cfg: Config, n: nat)
    requires n <= 104
    ensures var s := Run(cfg, Fresh, [Start] + EmptyFetches(n));
            && s.durable == Fresh.durable && s.idle == n
            && s.process == if n < 104 then Up(1, n % 26, n / 26) else Down
  {
    if n == 0 {
      assert [Start] + EmptyFetches(0) == [] + [Start];
      RunNext(cfg, Fresh, [], Start);
    } else {
      EmptyFetchesCount(cfg, n - 1);
      CountsOn(n);
      assert [Start] + EmptyFetches(n) == ([Start] + EmptyFetches(n - 1)) + [Loop(NotYet)];
      hide EmptyFetches, Run, TryBlock;
      RunNext(cfg, Fresh, [Start] + EmptyFetches(n - 1), Loop(NotYet));
    }
  }

  // -------------------------------------------------------------------------
  // The v7 snapshot, and the one upgrade height at which it can be undone
  // -------------------------------------------------------------------------

  const GoodDao := DaoWork(false, false, [], false, false, false, false)
  const GoodV7 := V7Work(false, false, [], false, [], false, false, false, false)

  function GoodBlock(ops: seq<HandlerOp>): BlockWork {
    BlockWork(ops, false, [], {}, false, false, false, false, [])
  }

  // Index block 1; at block 2 take the snapshot and be killed; start again and index block 1 again,
  // this time with a pool-less stake event.
  function ReplayAfterSnapshot(): seq<Step> {
    [Start] + [Loop(Ready(GoodDao, GoodV7, GoodBlock([]), NoCrash))]
    + [Loop(Ready(GoodDao, GoodV7, GoodBlock([]), AfterV7))]
    + [Start] + [Loop(Ready(GoodDao, GoodV7, GoodBlock([StakeTxStatement("", false)]), NoCrash))]
  }

  lemma GoodDaoTry(cfg: Config, d: Durable, h: nat)
    ensures var r := EnsureDao(cfg, d, h, GoodDao);
            && r.ok && r.durable.db.height == d.db.height
            && r.durable.db.v7State == d.db.v7State && r.durable.db.stakeTxs == d.db.stakeTxs
  {
    assert Clean(DaoOps(h, GoodDao));
    TryTellsTheTruth(cfg, d, DaoCommit(h, GoodDao));
    DaoEffect(d.db, h, GoodDao);
    hide Try;
  }

  lemma NoWrites(db: Db)
    ensures ExecOps(db, []) == db
  {
  }

  lemma GoodBlockTry(cfg: Config, d: Durable, h: nat, ops: seq<HandlerOp>)
    requires ops == [] || ops == [StakeTxStatement("", false)]
    ensures var r := Try(cfg, d, BlockCommit(h, GoodBlock(ops)));
            && r.ok && r.durable.db.height == h && r.durable.db.v7State == d.db.v7State
            && r.durable.db.stakeTxs == d.db.stakeTxs + if ops == [] then [] else [StakeTx(h, "")]
  {
    hide ExecOps, Try, IsDaodaoIndexable;
    var w := GoodBlock(ops);
    var a := EmitAll(cfg, h, ops);
    var up, sweep := Sql(SetHeight(h), false, false), Sql(Remove({}), false, false);
    assert a == (if ops == [] then [] else [Sql(InsertStakeTx(StakeTx(h, "")), false, false)]) by {
      if ops != [] {
        assert ops[..0] == [] && EmitAll(cfg, h, ops[..0]) == [];
        assert a == EmitAll(cfg, h, ops[..0]) + Emit(cfg, h, ops[0]);
      }
    }
    assert w.after == [] && EmitAll(cfg, h, w.after) == [];
    assert BlockOps(cfg, h, w) == a + [up] + EmitAll(cfg, h, w.after) + [sweep];
    assert a + [up] + EmitAll(cfg, h, w.after) == a + [up];
    hide EmitAll, BlockOps;
    TryTellsTheTruth(cfg, d, BlockCommit(h, w));
    ExecOpsConcat(d.db, a + [up], [sweep]);
    ExecOpsConcat(d.db, a, [up]);
    if ops != [] {
      OneWrite(d.db, a[0]);
    } else {
      NoWrites(d.db);
    }
    OneWrite(ExecOps(d.db, a), up);
    OneWrite(Exec(ExecOps(d.db, a), up.write), sweep);
  }

  lemma ReplayHasNoStrays()
    ensures NoStrays(ReplayAfterSnapshot())
  {
  }

  /** With the upgrade at height 2 the guarantee fails: the stored height is still 1 when the snapshot
      commits, a restart replays block 1, and its row with an empty pool id is never relinked. */
  lemma SnapshotUndoneAtTwo(cfg: Config)
    requires cfg.v7Upgrade == 2
    ensures NoStrays(ReplayAfterSnapshot())
    ensures !NoLegacyGap(cfg, Run(cfg, Fresh, ReplayAfterSnapshot()).durable.db)
  {
    ReplayHasNoStrays();
    assert Run(cfg, Fresh, []) == Fresh;
    hide NoStrays, Run, TryBlock;
    var t1 := Ready(GoodDao, GoodV7, GoodBlock([]), NoCrash);
    var t2 := Ready(GoodDao, GoodV7, GoodBlock([]), AfterV7);
    var t3 := Ready(GoodDao, GoodV7, GoodBlock([StakeTxStatement("", false)]), NoCrash);
    RunNext(cfg, Fresh, [], Start);
    RunNext(cfg, Fresh, [Start], Loop(t1));
    RunNext(cfg, Fresh, [Start] + [Loop(t1)], Loop(t2));
    RunNext(cfg, Fresh, [Start] + [Loop(t1)] + [Loop(t2)], Start);
    RunNext(cfg, Fresh, [Start] + [Loop(t1)] + [Loop(t2)] + [Start], Loop(t3));
    assert [] + [Start] == [Start];
    var s1 := Started(Fresh);
    var s2 := Iterate(cfg, s1, t1);
    IndexesOne(cfg, s1, t1, []);
    var s3 := Iterate(cfg, s2, t2);
    KilledAfterSnapshot(cfg, s2, t2);
    var s4 := Started(s3);
    IndexesOne(cfg, s4, t3, [StakeTxStatement("", false)]);
    var s5 := Iterate(cfg, s4, t3);
    hide Iterate;
    assert s5.durable.db.stakeTxs[|s5.durable.db.stakeTxs| - 1] == StakeTx(1, "");
  }

  lemma IndexesOne(cfg: Config, s: System, t: Tick, ops: seq<HandlerOp>)
    requires cfg.v7Upgrade == 2 && s.process.Up? && s.process.currentBlock == 1 && s.durable.db.height == 1
    requires t == Ready(GoodDao, GoodV7, GoodBlock(ops), NoCrash)
    requires ops == [] || ops == [StakeTxStatement("", false)]
    ensures var after := Iterate(cfg, s, t);
            && after.process == Up(2, 0, 0) && after.durable.db.height == 1
            && after.durable.db.v7State == s.durable.db.v7State
            && (ops != [] ==> after.durable.db.stakeTxs == s.durable.db.stakeTxs + [StakeTx(1, "")])
  {
    GoodDaoTry(cfg, s.durable, 1);
    var d := EnsureDao(cfg, s.durable, 1, GoodDao).durable;
    GoodBlockTry(cfg, d, 1, ops);
    hide EnsureDao, Try;
  }

  lemma KilledAfterSnapshot(cfg: Config, s: System, t: Tick)
    requires cfg.v7Upgrade == 2 && s.process.Up? && s.process.currentBlock == 2 && s.durable.db.height == 1
    requires t == Ready(GoodDao, GoodV7, GoodBlock([]), AfterV7)
    ensures var after := Iterate(cfg, s, t);
            after.durable.db.height == 1 && Completed(after.durable.db.v7State)
  {
    GoodDaoTry(cfg, s.durable, 2);
    var d := EnsureDao(cfg, s.durable, 2, GoodDao).durable;
    assert EmitV7([]) == [];
    assert Clean(V7Ops(cfg, GoodV7));
    TryTellsTheTruth(cfg, d, V7Commit(2, GoodV7));
    V7Effect(cfg, d.db, GoodV7);
    hide EnsureDao, Try;
  }

  // A first block whose handler fails, and a sibling's statement that arrives after it.
  const Stray := BlockWork([HandlerRaise], false, [], {}, false, false, false, false, [SetHeight(7)])

  /** Without the assumption on siblings the main result fails: after one failed attempt nothing has been
      committed, yet the stored height is no longer that of the replayed history. */
  lemma StraysBreakReplay(cfg: Config)
    requires cfg.daoCutoff == 0 && cfg.v7Upgrade == 0
    ensures var steps := [Start] + [Loop(Ready(GoodDao, GoodV7, Stray, NoCrash))];
            var d := Run(cfg, Fresh, steps).durable;
            d.history == [] && d.db.height == 7 && d.db != Replay(cfg, d.history)
  {
    var t := Ready(GoodDao, GoodV7, Stray, NoCrash);
    RunNext(cfg, Fresh, [], Start);
    RunNext(cfg, Fresh, [Start], Loop(t));
    assert [] + [Start] == [Start] && Run(cfg, Fresh, []) == Fresh;
    var ops := BlockOps(cfg, 1, Stray);
    assert [HandlerRaise][..0] == [] && EmitAll(cfg, 1, [HandlerRaise]) == [] + [Raise];
    assert ops[0] == Raise && RunOps(Open(FreshDb), ops).threw;
    StrayStatementsEscape(cfg, Fresh.durable, 1, Stray);
    assert [SetHeight(7)][..0] == [] && ExecAll(FreshDb, [SetHeight(7)]).height == 7;
    hide Run, BlockOps;
  }

  /** After the v7 snapshot no row below the upgrade height ever again has an empty pool id, in every
      run, exactly when the upgrade height is not 2. */
  lemma V7SnapshotHolds(cfg: Config)
    ensures (forall steps: seq<Step> :: NoStrays(steps) ==> NoLegacyGap(cfg, Run(cfg, Fresh, steps).durable.db))
            <==> cfg.v7Upgrade != 2
  {
    if cfg.v7Upgrade == 2 {
      SnapshotUndoneAtTwo(cfg);
    } else {
      forall steps: seq<Step> | NoStrays(steps)
        ensures NoLegacyGap(cfg, Run(cfg, Fresh, steps).durable.db)
      {
        EveryRun(cfg, steps);
      }
    }
  }
}
