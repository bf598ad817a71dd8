/** The content of the committed database: what the chain's blocks make of it, for a chain that is a fixed
    function of height and database. Failures are still whatever the run meets. */
module RunContent {
  import opened Wrappers
  import opened Transactions
  import opened BlockLoop
  import opened BlockRuns
  import opened RunTheorems

  // What the handlers of a block and the passes of the snapshots write, and what a block's sweep removes.
  datatype Chain = Chain(
    handlers: (nat, Db) -> seq<Write>, expired: (nat, Db) -> set<string>,
    daoWrites: (nat, Db) -> seq<Write>, v7Before: Db -> seq<Write>, v7After: Db -> seq<Write>)

  function Indexed(chain: Chain, db: Db, h: nat): Db {
    Exec(Exec(ExecAll(db, chain.handlers(h, db)), SetHeight(h)), Remove(chain.expired(h, db)))
  }

  function Copied(chain: Chain, db: Db, h: nat): Db {
    Exec(ExecAll(Exec(db, StartDao(h)), chain.daoWrites(h, db)), FinishDao)
  }

  function Migrated(cfg: Config, chain: Chain, db: Db): Db {
    var relinked := Exec(ExecAll(Exec(db, StartV7(cfg.v7Upgrade)), chain.v7Before(db)),
                         Relink(V7_LEGACY_POOL_ID, cfg.v7Upgrade));
    Exec(ExecAll(relinked, chain.v7After(db)), FinishV7)
  }

  function Applied(cfg: Config, chain: Chain, db: Db, c: Commit): Db {
    match c
    case DaoCommit(h, _) => Copied(chain, db, h)
    case V7Commit(_, _) => Migrated(cfg, chain, db)
    case BlockCommit(h, _) => Indexed(chain, db, h)
  }

  // The committed transactions by kind and height alone, each with the chain's content.
  function Folded(cfg: Config, chain: Chain, history: seq<Commit>): Db {
    if history == [] then FreshDb
    else Applied(cfg, chain, Folded(cfg, chain, history[..|history| - 1]), history[|history| - 1])
  }

  // An attempt that would commit carries the chain's content; one that fails may have got anywhere.
  predicate Carries(cfg: Config, chain: Chain, db: Db, c: Commit) {
    Clean(OpsOf(cfg, c)) ==>
      match c
      case DaoCommit(h, w) => Writes(EmitDao(h, w.ops)) == chain.daoWrites(h, db)
      case V7Commit(_, w) =>
        Writes(EmitV7(w.before)) == chain.v7Before(db) && Writes(EmitV7(w.after)) == chain.v7After(db)
      case BlockCommit(h, w) =>
        && Writes(EmitAll(cfg, h, w.before)) + Writes(EmitAll(cfg, h, w.after)) == chain.handlers(h, db)
        && w.expired == chain.expired(h, db)
  }

  // Each part of a tick, on the database it starts from.
  predicate TickCarries(cfg: Config, chain: Chain, d: Durable, h: nat, t: Tick)
    requires t.Ready?
  {
    var d1 := EnsureDao(cfg, d, h, t.dao).durable;
    var d2 := EnsureV7(cfg, d1, h, t.v7).durable;
    && Carries(cfg, chain, d.db, DaoCommit(h, t.dao))
    && Carries(cfg, chain, d1.db, V7Commit(h, t.v7))
    && Carries(cfg, chain, d2.db, BlockCommit(h, t.block))
  }

  predicate StepCarries(cfg: Config, chain: Chain, s: System, step: Step) {
    step.Loop? && step.tick.Ready? && s.process.Up? ==>
      TickCarries(cfg, chain, s.durable, s.process.currentBlock, step.tick)
  }

  predicate FromChain(cfg: Config, chain: Chain, steps: seq<Step>) {
    forall i :: 0 <= i < |steps| ==> StepCarries(cfg, chain, Run(cfg, Fresh, steps[..i]), steps[i])
  }

  // -------------------------------------------------------------------------
  // One commit
  // -------------------------------------------------------------------------

  lemma BlockApplied(cfg: Config, chain: Chain, db: Db, h: nat, w: BlockWork)
    requires Carries(cfg, chain, db, BlockCommit(h, w)) && Clean(BlockOps(cfg, h, w))
    ensures ExecOps(db, BlockOps(cfg, h, w)) == Indexed(chain, db, h)
  {
    var a, b := EmitAll(cfg, h, w.before), EmitAll(cfg, h, w.after);
    var up, sweep := Sql(SetHeight(h), w.heightFails, false), Sql(Remove(w.expired), w.sweepFails, false);
    EmittedWrites(cfg, h, w.after);
    hide EmitAll, ExecOps, Clean, ExecAll;
    ExecOpsConcat(db, a + [up] + b, [sweep]);
    ExecOpsConcat(db, a + [up], b);
    ExecOpsConcat(db, a, [up]);
    OneWrite(ExecOps(db, a), up);
    ExecOpsIs(db, a);
    ExecOpsIs(Exec(ExecAll(db, Writes(a)), up.write), b);
    HeightStoredLast(cfg, h, ExecAll(db, Writes(a)), Writes(b));
    ExecAllConcat(db, Writes(a), Writes(b));
    OneWrite(ExecOps(db, a + [up] + b), sweep);
  }

  lemma ExecOpsIs(db: Db, ops: seq<Op>)
    ensures ExecOps(db, ops) == ExecAll(db, Writes(ops))
  {
  }

  lemma DaoApplied(cfg: Config, chain: Chain, db: Db, h: nat, w: DaoWork)
    requires Carries(cfg, chain, db, DaoCommit(h, w)) && Clean(DaoOps(h, w))
    ensures ExecOps(db, DaoOps(h, w)) == Copied(chain, db, h)
  {
    var first, last := Sql(StartDao(h), w.startFails, false), Sql(FinishDao, w.finishFails, false);
    var mid := EmitDao(h, w.ops);
    hide EmitDao, ExecOps, Clean, ExecAll;
    ExecOpsConcat(db, [first] + mid, [last]);
    ExecOpsConcat(db, [first], mid);
    OneWrite(db, first);
    ExecOpsIs(Exec(db, first.write), mid);
    OneWrite(ExecOps(db, [first] + mid), last);
  }

  lemma V7Applied(cfg: Config, chain: Chain, db: Db, h: nat, w: V7Work)
    requires Carries(cfg, chain, db, V7Commit(h, w)) && Clean(V7Ops(cfg, w))
    ensures ExecOps(db, V7Ops(cfg, w)) == Migrated(cfg, chain, db)
  {
    var first := Sql(StartV7(cfg.v7Upgrade), w.startFails, false);
    var relink := Sql(Relink(V7_LEGACY_POOL_ID, cfg.v7Upgrade), w.relinkFails, false);
    var last := Sql(FinishV7, w.finishFails, false);
    var a, b := EmitV7(w.before), EmitV7(w.after);
    hide EmitV7, ExecOps, Clean, ExecAll;
    ExecOpsConcat(db, [first] + a + [relink] + b, [last]);
    ExecOpsConcat(db, [first] + a + [relink], b);
    ExecOpsConcat(db, [first] + a, [relink]);
    ExecOpsConcat(db, [first], a);
    OneWrite(db, first);
    ExecOpsIs(Exec(db, first.write), a);
    var before := ExecOps(db, [first] + a);
    OneWrite(before, relink);
    ExecOpsIs(Exec(before, relink.write), b);
    OneWrite(ExecOps(db, [first] + a + [relink] + b), last);
  }

  lemma TryApplies(cfg: Config, chain: Chain, d: Durable, c: Commit)
    requires AttemptOf(cfg, c).late == [] && Carries(cfg, chain, d.db, c)
    ensures var r := Try(cfg, d, c);
            r.durable == if r.ok then Durable(Applied(cfg, chain, d.db, c), d.history + [c]) else d
  {
    TryTellsTheTruth(cfg, d, c);
    if Try(cfg, d, c).ok {
      match c {
        case DaoCommit(h, w) => DaoApplied(cfg, chain, d.db, h, w);
        case V7Commit(h, w) => V7Applied(cfg, chain, d.db, h, w);
        case BlockCommit(h, w) => BlockApplied(cfg, chain, d.db, h, w);
      }
    }
    hide Try, Carries, Clean, ExecOps;
  }

  // -------------------------------------------------------------------------
  // Every run
  // -------------------------------------------------------------------------

  lemma FoldedNext(cfg: Config, chain: Chain, history: seq<Commit>, c: Commit)
    ensures Folded(cfg, chain, history + [c]) == Applied(cfg, chain, Folded(cfg, chain, history), c)
  {
    hide Applied;
    assert (history + [c])[..|history|] == history;
  }

  predicate IsFold(cfg: Config, chain: Chain, d: Durable) {
    d.db == Folded(cfg, chain, d.history)
  }

  lemma TryKeepsFold(cfg: Config, chain: Chain, d: Durable, c: Commit)
    requires AttemptOf(cfg, c).late == [] && Carries(cfg, chain, d.db, c) && IsFold(cfg, chain, d)
    ensures IsFold(cfg, chain, Try(cfg, d, c).durable)
  {
    TryApplies(cfg, chain, d, c);
    FoldedNext(cfg, chain, d.history, c);
    hide Try, Applied, Carries;
  }

  lemma TickKeepsFold(cfg: Config, chain: Chain, d: Durable, h: nat, t: Tick)
    requires t.Ready? && t.block.late == [] && TickCarries(cfg, chain, d, h, t) && IsFold(cfg, chain, d)
    ensures IsFold(cfg, chain, TryBlock(cfg, d, h, t).durable)
  {
    hide Try, IsFold, Carries;
    TryKeepsFold(cfg, chain, d, DaoCommit(h, t.dao));
    var d1 := EnsureDao(cfg, d, h, t.dao).durable;
    TryKeepsFold(cfg, chain, d1, V7Commit(h, t.v7));
    var d2 := EnsureV7(cfg, d1, h, t.v7).durable;
    TryKeepsFold(cfg, chain, d2, BlockCommit(h, t.block));
  }

  lemma StepKeepsFold(cfg: Config, chain: Chain, s: System, step: Step)
    requires IsFold(cfg, chain, s.durable) && StepCarries(cfg, chain, s, step)
    requires step.Loop? && step.tick.Ready? ==> step.tick.block.late == []
    ensures IsFold(cfg, chain, Next(cfg, s, step).durable)
  {
    hide TryBlock, IsFold, TickCarries;
    if step.Loop? && s.process.Up? && step.tick.Ready? {
      TickKeepsFold(cfg, chain, s.durable, s.process.currentBlock, step.tick);
    }
  }

  lemma Prefixes(cfg: Config, chain: Chain, steps: seq<Step>)
    requires steps != [] && NoStrays(steps) && FromChain(cfg, chain, steps)
    ensures var init, step := steps[..|steps| - 1], steps[|steps| - 1];
            && NoStrays(init) && FromChain(cfg, chain, init)
            && StepCarries(cfg, chain, Run(cfg, Fresh, init), step)
            && (step.Loop? && step.tick.Ready? ==> step.tick.block.late == [])
            && Run(cfg, Fresh, steps) == Next(cfg, Run(cfg, Fresh, init), step)
  {
    var init := steps[..|steps| - 1];
    assert forall i :: 0 <= i < |init| ==> init[i] == steps[i] && init[..i] == steps[..i];
    hide StepCarries, Next;
    forall i | 0 <= i < |init|
      ensures StepCarries(cfg, chain, Run(cfg, Fresh, init[..i]), init[i])
    {
      assert StepCarries(cfg, chain, Run(cfg, Fresh, steps[..i]), steps[i]);
    }
    assert StepCarries(cfg, chain, Run(cfg, Fresh, steps[..|init|]), steps[|init|]);
  }

  /** For a fixed chain, the committed database after every run is the fold of the chain's content over the
      committed transactions in order. Which these are, ExactlyOnce and SnapshotsOnce say; the failures,
      retries and restarts in between leave no trace. */
  lemma {:induction false} DatabaseIsFold(cfg: Config, chain: Chain, steps: seq<Step>)
    requires NoStrays(steps) && FromChain(cfg, chain, steps)
    ensures IsFold(cfg, chain, Run(cfg, Fresh, steps).durable)
  {
    if steps != [] {
      Prefixes(cfg, chain, steps);
      hide Run, NoStrays, FromChain, IsFold, Next, StepCarries;
      DatabaseIsFold(cfg, chain, steps[..|steps| - 1]);
      StepKeepsFold(cfg, chain, Run(cfg, Fresh, steps[..|steps| - 1]), steps[|steps| - 1]);
    }
  }

  // -------------------------------------------------------------------------
  // Block by block
  // -------------------------------------------------------------------------

  // The snapshots due before block h, if they have not been taken.
  function Prepared(cfg: Config, chain: Chain, db: Db, h: nat): Db {
    var copied := if 0 < cfg.daoCutoff <= h && !Completed(db.daoState) then Copied(chain, db, h) else db;
    if 0 < cfg.v7Upgrade <= h && !Completed(copied.v7State) then Migrated(cfg, chain, copied) else copied
  }

  // The chain played without failures: each block after the snapshots due before it.
  function Played(cfg: Config, chain: Chain, heights: seq<nat>): Db {
    if heights == [] then FreshDb
    else
      var h := heights[|heights| - 1];
      Indexed(chain, Prepared(cfg, chain, Played(cfg, chain, heights[..|heights| - 1]), h), h)
  }

  lemma PlayedNext(cfg: Config, chain: Chain, heights: seq<nat>, h: nat)
    ensures Played(cfg, chain, heights + [h]) == Indexed(chain, Prepared(cfg, chain, Played(cfg, chain, heights), h), h)
  {
    hide Indexed, Prepared;
    assert (heights + [h])[..|heights|] == heights;
  }

  function NextHeight(heights: seq<nat>, top: nat): nat {
    if heights == [] then 1 else top + 1
  }

  // Behind the played chain by at most the snapshots due next, and by none where block 1 may come again.
  predicate OnTrack(cfg: Config, chain: Chain, db: Db, heights: seq<nat>, afterBlock: bool) {
    var played, n := Played(cfg, chain, heights), NextHeight(heights, db.height);
    && Prepared(cfg, chain, db, n) == Prepared(cfg, chain, played, n)
    && ((heights != [] && db.height == 1) || afterBlock ==> db == played)
  }

  predicate AfterBlock(history: seq<Commit>) {
    history != [] && history[|history| - 1].BlockCommit?
  }

  ghost predicate Playing(cfg: Config, chain: Chain, d: Durable) {
    OnTrack(cfg, chain, d.db, BlockHeights(d.history), AfterBlock(d.history))
  }

  predicate NoneDueAtTwo(cfg: Config) {
    cfg.daoCutoff != 2 && cfg.v7Upgrade != 2
  }

  lemma DaoKeepsPlaying(cfg: Config, chain: Chain, d: Durable, h: nat, w: DaoWork)
    requires AtBlock(cfg, d, h) && Playing(cfg, chain, d) && NoneDueAtTwo(cfg)
    requires Carries(cfg, chain, d.db, DaoCommit(h, w))
    ensures Playing(cfg, chain, EnsureDao(cfg, d, h, w).durable)
  {
    hide Carries, Clean, ExecOps, BlockHeights, DurableOk, MayIndex, Try, Copied, OnTrack, DaoOps;
    var c := DaoCommit(h, w);
    if 0 < cfg.daoCutoff <= h && !w.stateReadFails && !Completed(d.db.daoState) {
      TryApplies(cfg, chain, d, c);
      TryTellsTheTruth(cfg, d, c);
      if Try(cfg, d, c).ok {
        SnapshotHeights(cfg, d, h, c);
        DaoEffect(d.db, h, w);
        SnapshotIsNext(cfg, d, h, DaoSnapshot);
        CopiedOnTrack(cfg, chain, d.db, BlockHeights(d.history), h, AfterBlock(d.history));
      }
    }
    hide Playing;
  }

  lemma CopiedOnTrack(cfg: Config, chain: Chain, db: Db, heights: seq<nat>, h: nat, afterBlock: bool)
    requires OnTrack(cfg, chain, db, heights, afterBlock) && h == NextHeight(heights, db.height)
    requires heights != [] ==> db.height != 1
    requires 0 < cfg.daoCutoff <= h && !Completed(db.daoState)
    requires var after := Copied(chain, db, h);
             after.height == db.height && after.v7State == db.v7State && Completed(after.daoState)
    ensures OnTrack(cfg, chain, Copied(chain, db, h), heights, false)
  {
    hide Copied, Migrated, Played;
  }

  lemma MigratedOnTrack(cfg: Config, chain: Chain, db: Db, heights: seq<nat>, h: nat, afterBlock: bool)
    requires OnTrack(cfg, chain, db, heights, afterBlock) && h == NextHeight(heights, db.height)
    requires heights != [] ==> db.height != 1
    requires cfg.daoCutoff == 0 || h < cfg.daoCutoff || Completed(db.daoState)
    requires 0 < cfg.v7Upgrade <= h && !Completed(db.v7State)
    requires var after := Migrated(cfg, chain, db);
             after.height == db.height && after.daoState == db.daoState && Completed(after.v7State)
    ensures OnTrack(cfg, chain, Migrated(cfg, chain, db), heights, false)
  {
    hide Copied, Migrated, Played;
  }

  // A snapshot still open at block h is due at the next height, and that is not 2.
  lemma SnapshotIsNext(cfg: Config, d: Durable, h: nat, s: Snapshot)
    requires AtBlock(cfg, d, h) && NoneDueAtTwo(cfg) && 0 < DueAt(cfg, s) <= h && !Completed(StateOf(d.db, s))
    ensures h == NextHeight(BlockHeights(d.history), d.db.height)
    ensures BlockHeights(d.history) != [] ==> d.db.height != 1
  {
    hide Replay, BlockHeights, Taken, AllClean, SnapshotOk, DaoWritesOk, NoLegacyGap;
  }

  lemma V7KeepsPlaying(cfg: Config, chain: Chain, d: Durable, h: nat, w: V7Work)
    requires AtBlock(cfg, d, h) && Playing(cfg, chain, d) && NoneDueAtTwo(cfg)
    requires cfg.daoCutoff == 0 || h < cfg.daoCutoff || Completed(d.db.daoState)
    requires Carries(cfg, chain, d.db, V7Commit(h, w))
    ensures Playing(cfg, chain, EnsureV7(cfg, d, h, w).durable)
  {
    hide Carries, Clean, ExecOps, BlockHeights, DurableOk, MayIndex, Try, Migrated, OnTrack, V7Ops, RelinkAll, Exec;
    var c := V7Commit(h, w);
    if 0 < cfg.v7Upgrade <= h && !w.stateReadFails && !Completed(d.db.v7State) {
      TryApplies(cfg, chain, d, c);
      TryTellsTheTruth(cfg, d, c);
      if Try(cfg, d, c).ok {
        SnapshotHeights(cfg, d, h, c);
        V7Effect(cfg, d.db, w);
        SnapshotIsNext(cfg, d, h, V7Snapshot);
        MigratedOnTrack(cfg, chain, d.db, BlockHeights(d.history), h, AfterBlock(d.history));
      }
    }
    hide Playing;
  }

  lemma BlockKeepsPlaying(cfg: Config, chain: Chain, d: Durable, h: nat, w: BlockWork)
    requires AtBlock(cfg, d, h) && Playing(cfg, chain, d) && w.late == []
    requires cfg.daoCutoff == 0 || h < cfg.daoCutoff || Completed(d.db.daoState)
    requires cfg.v7Upgrade == 0 || h < cfg.v7Upgrade || Completed(d.db.v7State)
    requires Carries(cfg, chain, d.db, BlockCommit(h, w))
    ensures Playing(cfg, chain, Try(cfg, d, BlockCommit(h, w)).durable)
  {
    var c, heights := BlockCommit(h, w), BlockHeights(d.history);
    TryApplies(cfg, chain, d, c);
    if Try(cfg, d, c).ok {
      assert Prepared(cfg, chain, d.db, h) == d.db;
      assert h == NextHeight(heights, d.db.height) || (h == d.db.height == 1 && heights != []);
      assert Prepared(cfg, chain, Played(cfg, chain, heights), h) == d.db;
      PlayedNext(cfg, chain, heights, h);
      BlockHeightsNext(d.history, c);
    }
    hide Try, Carries, DurableOk, BlockHeights, Prepared, Indexed, Played;
  }

  lemma TickKeepsPlaying(cfg: Config, chain: Chain, d: Durable, h: nat, t: Tick)
    requires AtBlock(cfg, d, h) && Playing(cfg, chain, d) && NoneDueAtTwo(cfg)
    requires t.Ready? && t.block.late == [] && TickCarries(cfg, chain, d, h, t)
    ensures Playing(cfg, chain, TryBlock(cfg, d, h, t).durable)
  {
    hide EnsureDao, EnsureV7, Try, AtBlock, Playing, Carries;
    DaoKeepsPlaying(cfg, chain, d, h, t.dao);
    DaoTry(cfg, d, h, t.dao);
    var dao := EnsureDao(cfg, d, h, t.dao);
    if dao.ok {
      V7KeepsPlaying(cfg, chain, dao.durable, h, t.v7);
      V7Try(cfg, dao.durable, h, t.v7);
      var v7 := EnsureV7(cfg, dao.durable, h, t.v7);
      if v7.ok {
        BlockKeepsPlaying(cfg, chain, v7.durable, h, t.block);
      }
    }
  }

  lemma StepKeepsPlaying(cfg: Config, chain: Chain, s: System, step: Step, starts: nat)
    requires SystemOk(cfg, s, starts) && Playing(cfg, chain, s.durable) && NoneDueAtTwo(cfg)
    requires StepCarries(cfg, chain, s, step)
    requires step.Loop? && step.tick.Ready? ==> step.tick.block.late == []
    ensures Playing(cfg, chain, Next(cfg, s, step).durable)
  {
    hide TryBlock, Playing, TickCarries, DurableOk, MayIndex, BlockHeights;
    if step.Loop? && s.process.Up? && step.tick.Ready? {
      TickKeepsPlaying(cfg, chain, s.durable, s.process.currentBlock, step.tick);
    }
  }

  lemma FreshPlays(cfg: Config, chain: Chain)
    ensures Playing(cfg, chain, Fresh.durable)
  {
  }

  lemma {:induction false} KeepsPlaying(cfg: Config, chain: Chain, steps: seq<Step>)
    requires NoStrays(steps) && FromChain(cfg, chain, steps) && NoneDueAtTwo(cfg)
    ensures Playing(cfg, chain, Run(cfg, Fresh, steps).durable)
  {
    if steps == [] {
      FreshPlays(cfg, chain);
    } else {
      var init := steps[..|steps| - 1];
      Prefixes(cfg, chain, steps);
      hide Run, NoStrays, FromChain, Playing, Next, StepCarries, SystemOk;
      KeepsPlaying(cfg, chain, init);
      EveryRun(cfg, init);
      StepKeepsPlaying(cfg, chain, Run(cfg, Fresh, init), steps[|steps| - 1], Starts(init));
    }
  }

  // Whenever a block has just been committed, the database is the played chain.
  ghost predicate PlaysOn(cfg: Config) {
    forall chain: Chain, steps: seq<Step> :: NoStrays(steps) && FromChain(cfg, chain, steps) ==>
      var d := Run(cfg, Fresh, steps).durable;
      AfterBlock(d.history) ==> d.db == Played(cfg, chain, BlockHeights(d.history))
  }

  lemma DatabaseIsPlayedChain(cfg: Config, chain: Chain, steps: seq<Step>)
    requires NoStrays(steps) && FromChain(cfg, chain, steps) && NoneDueAtTwo(cfg)
    ensures var d := Run(cfg, Fresh, steps).durable;
            AfterBlock(d.history) ==> d.db == Played(cfg, chain, BlockHeights(d.history))
  {
    KeepsPlaying(cfg, chain, steps);
    hide Run, NoStrays, FromChain, Played, BlockHeights, Prepared;
  }

  // -------------------------------------------------------------------------
  // A snapshot due at 2, and a restart behind it
  // -------------------------------------------------------------------------

  // A chain with nothing in it, and a block of it.
  const Bare: Chain := Chain((h, db) => [], (h, db) => {}, (h, db) => [], db => [], db => [])

  function BareTick(crash: CrashPoint): Tick {
    Ready(GoodDao, GoodV7, GoodBlock([]), crash)
  }

  // Index block 1; be killed between the snapshots due at 2 and block 2; start again and index block 1 again.
  function Interrupted(): seq<Step> {
    [Start] + [Loop(BareTick(NoCrash))] + [Loop(BareTick(AfterV7))] + [Start] + [Loop(BareTick(NoCrash))]
  }

  lemma BareCarries(cfg: Config, db: Db, h: nat)
    ensures Carries(cfg, Bare, db, DaoCommit(h, GoodDao)) && Clean(DaoOps(h, GoodDao))
    ensures Carries(cfg, Bare, db, V7Commit(h, GoodV7)) && Clean(V7Ops(cfg, GoodV7))
    ensures Carries(cfg, Bare, db, BlockCommit(h, GoodBlock([]))) && Clean(BlockOps(cfg, h, GoodBlock([])))
  {
    assert EmitDao(h, []) == [] && EmitV7([]) == [] && EmitAll(cfg, h, []) == [] && Writes([]) == [];
  }

  lemma BareTickCarries(cfg: Config, d: Durable, h: nat, crash: CrashPoint)
    ensures TickCarries(cfg, Bare, d, h, BareTick(crash))
  {
    var d1 := EnsureDao(cfg, d, h, GoodDao).durable;
    var d2 := EnsureV7(cfg, d1, h, GoodV7).durable;
    BareCarries(cfg, d.db, h);
    BareCarries(cfg, d1.db, h);
    BareCarries(cfg, d2.db, h);
    hide Carries, EnsureDao, EnsureV7;
  }

  lemma InterruptedIsFromChain(cfg: Config)
    ensures NoStrays(Interrupted()) && FromChain(cfg, Bare, Interrupted())
  {
    hide TickCarries, Run;
    forall i | 0 <= i < |Interrupted()|
      ensures StepCarries(cfg, Bare, Run(cfg, Fresh, Interrupted()[..i]), Interrupted()[i])
    {
      var s, step := Run(cfg, Fresh, Interrupted()[..i]), Interrupted()[i];
      if step.Loop? && s.process.Up? {
        BareTickCarries(cfg, s.durable, s.process.currentBlock, step.tick.crash);
      }
    }
  }

  // The state of one snapshot after a good attempt at what is due at height h.
  predicate Brought(cfg: Config, db: Db, after: Db, h: nat, s: Snapshot) {
    if 0 < DueAt(cfg, s) <= h then Completed(StateOf(after, s)) else StateOf(after, s) == StateOf(db, s)
  }

  lemma BareDao(cfg: Config, d: Durable, h: nat)
    ensures var r := EnsureDao(cfg, d, h, GoodDao);
            && r.ok && r.durable.db.height == d.db.height && r.durable.db.v7State == d.db.v7State
            && Brought(cfg, d.db, r.durable.db, h, DaoSnapshot)
  {
    BareCarries(cfg, d.db, h);
    TryTellsTheTruth(cfg, d, DaoCommit(h, GoodDao));
    DaoEffect(d.db, h, GoodDao);
    hide Try, Carries, Clean, DaoOps, ExecOps;
  }

  lemma BareV7(cfg: Config, d: Durable, h: nat)
    ensures var r := EnsureV7(cfg, d, h, GoodV7);
            && r.ok && r.durable.db.height == d.db.height && r.durable.db.daoState == d.db.daoState
            && Brought(cfg, d.db, r.durable.db, h, V7Snapshot)
  {
    BareCarries(cfg, d.db, h);
    TryTellsTheTruth(cfg, d, V7Commit(h, GoodV7));
    V7Effect(cfg, d.db, GoodV7);
    hide Try, Carries, Clean, V7Ops, ExecOps, RelinkAll;
  }

  lemma BareBlock(cfg: Config, d: Durable, h: nat)
    ensures var r := Try(cfg, d, BlockCommit(h, GoodBlock([])));
            && r.ok && r.durable.db.height == h && AfterBlock(r.durable.history)
            && r.durable.db.daoState == d.db.daoState && r.durable.db.v7State == d.db.v7State
  {
    var w := GoodBlock([]);
    BareCarries(cfg, d.db, h);
    TryTellsTheTruth(cfg, d, BlockCommit(h, w));
    BlockOpsWrites(cfg, h, w);
    BlockWritesEffect(cfg, h, d.db, Writes(BlockOps(cfg, h, w)));
    ExecOpsIs(d.db, BlockOps(cfg, h, w));
    hide Try, Carries, Clean, BlockOps, ExecOps, ExecAll, BlockWrites;
  }

  lemma BareIteration(cfg: Config, s: System, crash: CrashPoint)
    requires s.process.Up? && (crash == NoCrash || crash == AfterV7)
    ensures var after, h := Iterate(cfg, s, BareTick(crash)), s.process.currentBlock;
            && Brought(cfg, s.durable.db, after.durable.db, h, DaoSnapshot)
            && Brought(cfg, s.durable.db, after.durable.db, h, V7Snapshot)
            && if crash == NoCrash
               then && after.process == Up(h + 1, 0, 0) && after.durable.db.height == h
                    && AfterBlock(after.durable.history)
               else after.process == Down && after.durable.db.height == s.durable.db.height
  {
    var h := s.process.currentBlock;
    BareDao(cfg, s.durable, h);
    var d1 := EnsureDao(cfg, s.durable, h, GoodDao).durable;
    BareV7(cfg, d1, h);
    var d2 := EnsureV7(cfg, d1, h, GoodV7).durable;
    BareBlock(cfg, d2, h);
    hide EnsureDao, EnsureV7, Try, AfterBlock;
  }

  lemma InterruptedRun(cfg: Config, s: Snapshot)
    requires DueAt(cfg, s) == 2
    ensures var d := Run(cfg, Fresh, Interrupted()).durable;
            d.db.height == 1 && AfterBlock(d.history) && Completed(StateOf(d.db, s))
  {
    var a, b := Loop(BareTick(NoCrash)), Loop(BareTick(AfterV7));
    assert Run(cfg, Fresh, []) == Fresh && [] + [Start] == [Start];
    RunNext(cfg, Fresh, [], Start);
    RunNext(cfg, Fresh, [Start], a);
    RunNext(cfg, Fresh, [Start] + [a], b);
    RunNext(cfg, Fresh, [Start] + [a] + [b], Start);
    RunNext(cfg, Fresh, [Start] + [a] + [b] + [Start], a);
    hide Run, Iterate, AfterBlock;
    var s1 := Started(Fresh);
    var s2 := Iterate(cfg, s1, BareTick(NoCrash));
    BareIteration(cfg, s1, NoCrash);
    var s3 := Iterate(cfg, s2, BareTick(AfterV7));
    BareIteration(cfg, s2, AfterV7);
    BareIteration(cfg, Started(s3), NoCrash);
  }

  // Playing block 1 any number of times takes no snapshot due at 2.
  lemma {:induction false} OnesTakeNone(cfg: Config, heights: seq<nat>, s: Snapshot)
    requires DueAt(cfg, s) == 2 && forall i :: 0 <= i < |heights| ==> heights[i] == 1
    ensures StateOf(Played(cfg, Bare, heights), s).None?
  {
    if heights != [] {
      var init := heights[..|heights| - 1];
      OnesTakeNone(cfg, init, s);
      OneTakesNone(cfg, Played(cfg, Bare, init), s);
      hide Indexed, Prepared;
    }
  }

  lemma OneTakesNone(cfg: Config, db: Db, s: Snapshot)
    requires DueAt(cfg, s) == 2 && StateOf(db, s).None?
    ensures StateOf(Indexed(Bare, Prepared(cfg, Bare, db, 1), 1), s).None?
  {
    hide ExecAll;
    NothingExecuted(db);
    NothingExecuted(Exec(db, StartDao(1)));
    var copied := if 0 < cfg.daoCutoff <= 1 && !Completed(db.daoState) then Copied(Bare, db, 1) else db;
    NothingExecuted(Exec(copied, StartV7(cfg.v7Upgrade)));
    NothingExecuted(Exec(Exec(copied, StartV7(cfg.v7Upgrade)), Relink(V7_LEGACY_POOL_ID, cfg.v7Upgrade)));
    NothingExecuted(Prepared(cfg, Bare, db, 1));
  }

  lemma NothingExecuted(db: Db)
    ensures ExecAll(db, []) == db
  {
  }

  /** Whenever a block has just been committed, the database is the chain played block by block without any
      failure: block 1 (again, if it was replayed), then 2 to the stored height, each after the snapshots
      due before it. It is so in every run exactly when no snapshot is due at 2: there a restart replays
      block 1 behind the snapshot. */
  lemma PlaysOnIffNoneDueAtTwo(cfg: Config)
    ensures PlaysOn(cfg) <==> NoneDueAtTwo(cfg)
  {
    if NoneDueAtTwo(cfg) {
      forall chain: Chain, steps: seq<Step> | NoStrays(steps) && FromChain(cfg, chain, steps)
        ensures var d := Run(cfg, Fresh, steps).durable;
                AfterBlock(d.history) ==> d.db == Played(cfg, chain, BlockHeights(d.history))
      {
        DatabaseIsPlayedChain(cfg, chain, steps);
      }
    } else {
      var s := if cfg.daoCutoff == 2 then DaoSnapshot else V7Snapshot;
      InterruptedIsFromChain(cfg);
      InterruptedRun(cfg, s);
      ExactlyOnce(cfg, Interrupted());
      var heights := BlockHeights(Run(cfg, Fresh, Interrupted()).durable.history);
      hide Run, NoStrays, FromChain, Played, BlockHeights, AfterBlock, Interrupted;
      OnesTakeNone(cfg, heights, s);
    }
  }
}
