/** What every run of the block loop guarantees, across failures, rollbacks, crashes and restarts:
    src/sync/sync_blocks.ts and the two snapshot routines. */
module BlockRuns {
  import opened Wrappers
  import opened Transactions
  import opened BlockLoop

  // -------------------------------------------------------------------------
  // The effect of one committed transaction
  // -------------------------------------------------------------------------

  lemma {:induction false} WritesConcat(a: seq<Op>, b: seq<Op>)
    ensures Writes(a + b) == Writes(a) + Writes(b)
  {
    if a == [] {
      assert a + b == b;
    } else {
      assert (a + b)[1..] == a[1..] + b;
      WritesConcat(a[1..], b);
      var head := if a[0].Sql? then [a[0].write] else [];
      assert head + (Writes(a[1..]) + Writes(b)) == (head + Writes(a[1..])) + Writes(b);
    }
  }

  // What a body writes when all its statements succeed.
  function ExecOps(db: Db, ops: seq<Op>): Db {
    ExecAll(db, Writes(ops))
  }

  lemma ExecOpsConcat(db: Db, a: seq<Op>, b: seq<Op>)
    ensures ExecOps(db, a + b) == ExecOps(ExecOps(db, a), b)
  {
    WritesConcat(a, b);
    ExecAllConcat(db, Writes(a), Writes(b));
  }

  predicate BlockWrite(cfg: Config, h: nat, w: Write) {
    match w
    case Put(_, _) => true
    case Remove(_) => true
    case SetHeight(x) => x == h
    case LogDaoWrite(entry) => entry == DaoWrite(h, ByEvent) && IsDaodaoIndexable(cfg, h)
    case InsertStakeTx(tx) => tx.height == h
    case _ => false
  }

  predicate BlockWrites(cfg: Config, h: nat, ws: seq<Write>) {
    forall i :: 0 <= i < |ws| ==> BlockWrite(cfg, h, ws[i])
  }

  lemma OneEmit(cfg: Config, h: nat, op: HandlerOp)
    ensures BlockWrites(cfg, h, Writes(Emit(cfg, h, op)))
  {
    var out := Emit(cfg, h, op);
    if out != [] {
      assert out[1..] == [] && Writes(out[1..]) == [];
    }
  }

  lemma {:induction false} EmittedWrites(cfg: Config, h: nat, ops: seq<HandlerOp>)
    ensures BlockWrites(cfg, h, Writes(EmitAll(cfg, h, ops)))
  {
    if ops != [] {
      var init, last := ops[..|ops| - 1], ops[|ops| - 1];
      EmittedWrites(cfg, h, init);
      OneEmit(cfg, h, last);
      WritesConcat(EmitAll(cfg, h, init), Emit(cfg, h, last));
      hide Emit, Writes, BlockWrite;
    }
  }

  lemma BlockWritesConcat(cfg: Config, h: nat, a: seq<Write>, b: seq<Write>)
    requires BlockWrites(cfg, h, a) && BlockWrites(cfg, h, b)
    ensures BlockWrites(cfg, h, a + b)
  {
    hide BlockWrite;
  }

  lemma OneBlockWrite(cfg: Config, h: nat, op: Op)
    requires op.Sql? && BlockWrite(cfg, h, op.write)
    ensures Writes([op]) == [op.write] && BlockWrites(cfg, h, Writes([op]))
  {
    hide BlockWrite;
    assert [op][1..] == [] && Writes([op][1..]) == [];
  }

  lemma BlockOpsWrites(cfg: Config, h: nat, w: BlockWork)
    ensures BlockWrites(cfg, h, Writes(BlockOps(cfg, h, w))) && SetHeight(h) in Writes(BlockOps(cfg, h, w))
  {
    hide EmitAll, Writes, BlockWrites;
    var a, b := EmitAll(cfg, h, w.before), EmitAll(cfg, h, w.after);
    var up, sweep := Sql(SetHeight(h), w.heightFails, false), Sql(Remove(w.expired), w.sweepFails, false);
    EmittedWrites(cfg, h, w.before);
    EmittedWrites(cfg, h, w.after);
    OneBlockWrite(cfg, h, up);
    OneBlockWrite(cfg, h, sweep);
    WritesConcat(a + [up] + b, [sweep]);
    WritesConcat(a + [up], b);
    WritesConcat(a, [up]);
    BlockWritesConcat(cfg, h, Writes(a), Writes([up]));
    BlockWritesConcat(cfg, h, Writes(a) + Writes([up]), Writes(b));
    BlockWritesConcat(cfg, h, Writes(a) + Writes([up]) + Writes(b), Writes([sweep]));
    assert SetHeight(h) in Writes([up]);
  }

  // Stake rows and the log of DAO writes only grow, all at height h; the log only where DAO events are indexed.
  ghost predicate Grown(cfg: Config, h: nat, db: Db, after: Db) {
    && after.daoState == db.daoState && after.v7State == db.v7State
    && db.daoWrites <= after.daoWrites && db.stakeTxs <= after.stakeTxs
    && (!IsDaodaoIndexable(cfg, h) ==> after.daoWrites == db.daoWrites)
    && (forall i :: |db.daoWrites| <= i < |after.daoWrites| ==> after.daoWrites[i] == DaoWrite(h, ByEvent))
    && (forall i :: |db.stakeTxs| <= i < |after.stakeTxs| ==> after.stakeTxs[i].height == h)
  }

  lemma {:induction false} BlockWritesEffect(cfg: Config, h: nat, db: Db, ws: seq<Write>)
    requires BlockWrites(cfg, h, ws)
    ensures Grown(cfg, h, db, ExecAll(db, ws))
    ensures ExecAll(db, ws).height == if SetHeight(h) in ws then h else db.height
  {
    if ws != [] {
      var init, last := ws[..|ws| - 1], ws[|ws| - 1];
      BlockWritesEffect(cfg, h, db, init);
      assert BlockWrite(cfg, h, last);
      assert ws == init + [last];
    }
  }

  // The height may be stored before or after any of a block's other writes.
  lemma {:induction false} HeightStoredLast(cfg: Config, h: nat, db: Db, ws: seq<Write>)
    requires BlockWrites(cfg, h, ws)
    ensures ExecAll(Exec(db, SetHeight(h)), ws) == Exec(ExecAll(db, ws), SetHeight(h))
  {
    if ws != [] {
      HeightStoredLast(cfg, h, db, ws[..|ws| - 1]);
      assert BlockWrite(cfg, h, ws[|ws| - 1]);
    }
  }

  lemma {:induction false} SnapshotRowsEffect(db: Db, h: nat, ops: seq<SnapshotOp>)
    requires Clean(EmitDao(h, ops))
    ensures var after := ExecOps(db, EmitDao(h, ops));
            && after == db.(daoWrites := after.daoWrites) && db.daoWrites <= after.daoWrites
            && forall i :: |db.daoWrites| <= i < |after.daoWrites| ==> after.daoWrites[i] == DaoWrite(h, BySnapshot)
    decreases |ops|
  {
    if ops != [] {
      var out := EmitDao(h, ops);
      assert out[1..] == EmitDao(h, ops[1..]);
      assert out[0].Sql?;
      forall i | 0 <= i < |out[1..]| ensures out[1..][i].Sql? && !out[1..][i].fails {
        assert out[1..][i] == out[i + 1];
      }
      SnapshotRowsEffect(Exec(db, out[0].write), h, ops[1..]);
      ExecAllFirst(db, out[0].write, Writes(out[1..]));
    } else {
      assert EmitDao(h, ops) == [];
    }
  }

  lemma {:induction false} V7RowsEffect(db: Db, ops: seq<V7Op>)
    ensures var after := ExecOps(db, EmitV7(ops)); after == db.(rows := after.rows)
    decreases |ops|
  {
    var out := EmitV7(ops);
    if ops != [] {
      assert out[1..] == EmitV7(ops[1..]);
      match out[0] {
        case Raise =>
          assert Writes(out) == Writes(out[1..]);
          V7RowsEffect(db, ops[1..]);
        case Sql(w, _, _) =>
          V7RowsEffect(Exec(db, w), ops[1..]);
          ExecAllFirst(db, w, Writes(out[1..]));
      }
    } else {
      assert out == [];
    }
  }

  lemma CleanParts(a: seq<Op>, b: seq<Op>)
    requires Clean(a + b)
    ensures Clean(a) && Clean(b)
  {
    assert forall i :: 0 <= i < |a| ==> a[i] == (a + b)[i];
    assert forall i :: 0 <= i < |b| ==> b[i] == (a + b)[|a| + i];
  }

  lemma OneWrite(db: Db, op: Op)
    requires op.Sql?
    ensures ExecOps(db, [op]) == Exec(db, op.write)
  {
    var w := op.write;
    assert [op][1..] == [] && Writes([op]) == [w] + Writes([op][1..]) == [w];
    assert [w][..0] == [] && ExecAll(db, [w]) == Exec(ExecAll(db, [w][..0]), w);
  }

  lemma DaoEffect(db: Db, h: nat, w: DaoWork)
    requires Clean(DaoOps(h, w))
    ensures var after := ExecOps(db, DaoOps(h, w));
            && after == db.(daoWrites := after.daoWrites, daoState := Some(SnapshotState(h, true)))
            && db.daoWrites <= after.daoWrites
            && forall i :: |db.daoWrites| <= i < |after.daoWrites| ==> after.daoWrites[i] == DaoWrite(h, BySnapshot)
  {
    var first, last := Sql(StartDao(h), w.startFails, false), Sql(FinishDao, w.finishFails, false);
    var mid := EmitDao(h, w.ops);
    CleanParts([first] + mid, [last]);
    CleanParts([first], mid);
    ExecOpsConcat(db, [first] + mid, [last]);
    ExecOpsConcat(db, [first], mid);
    OneWrite(db, first);
    var started := Exec(db, StartDao(h));
    SnapshotRowsEffect(started, h, w.ops);
    OneWrite(ExecOps(started, mid), last);
    hide EmitDao, Clean;
  }

  lemma V7Effect(cfg: Config, db: Db, w: V7Work)
    ensures var after := ExecOps(db, V7Ops(cfg, w));
            && after.height == db.height && after.daoState == db.daoState && after.daoWrites == db.daoWrites
            && after.v7State == Some(SnapshotState(cfg.v7Upgrade, true))
            && after.stakeTxs == RelinkAll(db.stakeTxs, V7_LEGACY_POOL_ID, cfg.v7Upgrade)
  {
    hide EmitV7, ExecAll, Writes;
    var first := Sql(StartV7(cfg.v7Upgrade), w.startFails, false);
    var relink := Sql(Relink(V7_LEGACY_POOL_ID, cfg.v7Upgrade), w.relinkFails, false);
    var last := Sql(FinishV7, w.finishFails, false);
    var a, b := EmitV7(w.before), EmitV7(w.after);
    ExecOpsConcat(db, [first] + a + [relink] + b, [last]);
    ExecOpsConcat(db, [first] + a + [relink], b);
    ExecOpsConcat(db, [first] + a, [relink]);
    ExecOpsConcat(db, [first], a);
    OneWrite(db, first);
    V7RowsEffect(Exec(db, first.write), w.before);
    var relinking := ExecOps(Exec(db, first.write), a);
    OneWrite(relinking, relink);
    assert relinking.stakeTxs == db.stakeTxs;
    assert Exec(relinking, relink.write).stakeTxs == RelinkAll(db.stakeTxs, V7_LEGACY_POOL_ID, cfg.v7Upgrade);
    V7RowsEffect(Exec(relinking, relink.write), w.after);
    OneWrite(ExecOps(Exec(relinking, relink.write), b), last);
  }

  // -------------------------------------------------------------------------
  // One guarded transaction of the loop
  // -------------------------------------------------------------------------

  /** Every transaction of the loop ends in a statement nobody swallows: what the loop takes for done
      is committed with every statement successful, and what it takes for failed left nothing. */
  lemma TryTellsTheTruth(cfg: Config, d: Durable, c: Commit)
    requires AttemptOf(cfg, c).late == []
    ensures Try(cfg, d, c).ok ==>
              && Clean(OpsOf(cfg, c))
              && Try(cfg, d, c).durable == Durable(ExecOps(d.db, OpsOf(cfg, c)), d.history + [c])
    ensures !Try(cfg, d, c).ok ==> Try(cfg, d, c).durable == d
    ensures Try(cfg, d, c).ok <==> (var a := AttemptOf(cfg, c);
                                    !a.connectFails && !a.beginFails && !a.commitFails && Clean(a.ops))
  {
    var a := AttemptOf(cfg, c);
    assert Guarded(a.ops);
    AllOrNothing(d.db, a);
    GuardedReportsTruthfully(d.db, a);
  }

  /** Without the assumption on siblings a failed block is not undone: exactly their late statements
      stay behind, outside every committed transaction. */
  lemma StrayStatementsEscape(cfg: Config, d: Durable, height: nat, w: BlockWork)
    requires !w.connectFails && !w.beginFails && RunOps(Open(d.db), BlockOps(cfg, height, w)).threw
    ensures var t := Try(cfg, d, BlockCommit(height, w));
            !t.ok && t.durable == Durable(ExecAll(d.db, w.late), d.history)
  {
  }

  // -------------------------------------------------------------------------
  // The invariant
  // -------------------------------------------------------------------------

  // The committed transactions, replayed in order on a fresh database.
  function Replay(cfg: Config, history: seq<Commit>): Db {
    if history == [] then FreshDb
    else ExecOps(Replay(cfg, history[..|history| - 1]), OpsOf(cfg, history[|history| - 1]))
  }

  function BlockHeights(history: seq<Commit>): seq<nat> {
    if history == [] then []
    else BlockHeights(history[..|history| - 1])
         + if history[|history| - 1].BlockCommit? then [history[|history| - 1].height] else []
  }

  datatype Snapshot = DaoSnapshot | V7Snapshot

  predicate Takes(c: Commit, s: Snapshot) {
    if s.DaoSnapshot? then c.DaoCommit? else c.V7Commit?
  }

  // The height it is due at, 0 if it is switched off.
  function DueAt(cfg: Config, s: Snapshot): nat {
    if s.DaoSnapshot? then cfg.daoCutoff else cfg.v7Upgrade
  }

  function StateOf(db: Db, s: Snapshot): Option<SnapshotState> {
    if s.DaoSnapshot? then db.daoState else db.v7State
  }

  // How often it has been committed.
  function Taken(history: seq<Commit>, s: Snapshot): nat {
    if history == [] then 0
    else Taken(history[..|history| - 1], s) + if Takes(history[|history| - 1], s) then 1 else 0
  }

  predicate AllClean(cfg: Config, history: seq<Commit>) {
    forall i :: 0 <= i < |history| ==> Clean(OpsOf(cfg, history[i]))
  }

  // Block 1 some number of times, then 2, 3, ... up to `top`, each once.
  function Replays(heights: seq<nat>, top: nat): int {
    |heights| - (top - 1)
  }

  predicate InOrder(heights: seq<nat>, top: nat) {
    var r := Replays(heights, top);
    && top >= 1
    && r >= (if top > 1 then 1 else 0)
    && forall i :: 0 <= i < |heights| ==> heights[i] == if i < r then 1 else i - r + 2
  }

  // The block the loop may be working on: the one after the stored height, or block 1 again.
  predicate MayIndex(heights: seq<nat>, top: nat, h: nat) {
    (h == top + 1 && heights != []) || h == top == 1
  }

  lemma InOrderNext(heights: seq<nat>, top: nat, h: nat)
    requires InOrder(heights, top) && MayIndex(heights, top, h)
    ensures InOrder(heights + [h], h)
  {
  }

  // Is the snapshot among the first j commits?
  ghost predicate TakenBefore(history: seq<Commit>, s: Snapshot, j: int) {
    exists i :: 0 <= i < j <= |history| && Takes(history[i], s)
  }

  // Taken at the height it is due at, and before every block from that height on.
  ghost predicate TakenInTime(cfg: Config, history: seq<Commit>, s: Snapshot) {
    && (forall j :: 0 <= j < |history| && Takes(history[j], s) ==> history[j].height == DueAt(cfg, s))
    && (DueAt(cfg, s) > 0 ==>
          forall j :: 0 <= j < |history| && history[j].BlockCommit? && history[j].height >= DueAt(cfg, s) ==>
            TakenBefore(history, s, j))
  }

  // Once completed it has been taken exactly once; until then no block from its height on is in.
  predicate StateOk(cfg: Config, db: Db, heights: seq<nat>, taken: nat, s: Snapshot) {
    match StateOf(db, s)
    case Some(state) =>
      state == SnapshotState(DueAt(cfg, s), true) && taken == 1 && 0 < DueAt(cfg, s) <= db.height + 1
    case None =>
      taken == 0 && (DueAt(cfg, s) > 0 ==> heights == [] || db.height < DueAt(cfg, s))
  }

  // Rows of the snapshot come first, then rows of events, none below the cutoff.
  predicate DaoWritesOk(cutoff: nat, rows: seq<DaoWrite>) {
    && (forall i :: 0 <= i < |rows| && rows[i].origin == ByEvent ==> rows[i].height >= cutoff)
    && (forall i, j :: 0 <= i < j < |rows| && rows[i].origin == ByEvent ==> rows[j].origin == ByEvent)
  }

  predicate DaoOk(cfg: Config, db: Db, heights: seq<nat>, taken: nat) {
    && DaoWritesOk(cfg.daoCutoff, db.daoWrites)
    && StateOk(cfg, db, heights, taken, DaoSnapshot)
    && (db.daoState.None? && cfg.daoCutoff > 0 ==> db.daoWrites == [])
  }

  // After the v7 snapshot no row below the upgrade height has an empty pool id.
  predicate NoLegacyGap(cfg: Config, db: Db) {
    Completed(db.v7State) ==>
      forall i :: 0 <= i < |db.stakeTxs| && db.stakeTxs[i].height < cfg.v7Upgrade ==> db.stakeTxs[i].poolId != ""
  }

  predicate V7Ok(cfg: Config, db: Db, heights: seq<nat>, taken: nat) {
    && StateOk(cfg, db, heights, taken, V7Snapshot)
    && (forall i :: 0 <= i < |db.stakeTxs| ==> db.stakeTxs[i].height >= 1)
    && (cfg.v7Upgrade != 2 ==> NoLegacyGap(cfg, db))
  }

  ghost predicate SnapshotOk(cfg: Config, d: Durable, s: Snapshot) {
    TakenInTime(cfg, d.history, s) && (StateOf(d.db, s).Some? ==> TakenBefore(d.history, s, |d.history|))
  }

  ghost predicate DurableOk(cfg: Config, d: Durable) {
    && d.db == Replay(cfg, d.history)
    && AllClean(cfg, d.history)
    && InOrder(BlockHeights(d.history), d.db.height)
    && SnapshotOk(cfg, d, DaoSnapshot) && SnapshotOk(cfg, d, V7Snapshot)
    && DaoOk(cfg, d.db, BlockHeights(d.history), Taken(d.history, DaoSnapshot))
    && V7Ok(cfg, d.db, BlockHeights(d.history), Taken(d.history, V7Snapshot))
  }

  ghost predicate AtBlock(cfg: Config, d: Durable, h: nat) {
    DurableOk(cfg, d) && MayIndex(BlockHeights(d.history), d.db.height, h)
  }

  // -------------------------------------------------------------------------
  // Each kind of commit keeps it
  // -------------------------------------------------------------------------

  function Extended(cfg: Config, d: Durable, c: Commit): Durable {
    Durable(ExecOps(d.db, OpsOf(cfg, c)), d.history + [c])
  }

  lemma BlockHeightsNext(history: seq<Commit>, c: Commit)
    ensures BlockHeights(history + [c]) ==
            if c.BlockCommit? then BlockHeights(history) + [c.height] else BlockHeights(history)
  {
    assert (history + [c])[..|history|] == history;
  }

  lemma TakenNext(history: seq<Commit>, c: Commit, s: Snapshot)
    ensures Taken(history + [c], s) == Taken(history, s) + if Takes(c, s) then 1 else 0
  {
    assert (history + [c])[..|history|] == history;
  }

  lemma ReplayNext(cfg: Config, history: seq<Commit>, c: Commit)
    ensures Replay(cfg, history + [c]) == ExecOps(Replay(cfg, history), OpsOf(cfg, c))
  {
    hide ExecOps, OpsOf;
    assert (history + [c])[..|history|] == history;
  }

  lemma AllCleanNext(cfg: Config, history: seq<Commit>, c: Commit)
    requires AllClean(cfg, history) && Clean(OpsOf(cfg, c))
    ensures AllClean(cfg, history + [c])
  {
    hide Clean, OpsOf;
    var after := history + [c];
    assert forall i :: 0 <= i < |history| ==> after[i] == history[i];
  }

  lemma ExtendedHistory(cfg: Config, d: Durable, c: Commit)
    requires d.db == Replay(cfg, d.history) && AllClean(cfg, d.history) && Clean(OpsOf(cfg, c))
    ensures Extended(cfg, d, c).db == Replay(cfg, d.history + [c])
    ensures AllClean(cfg, d.history + [c])
    ensures BlockHeights(d.history + [c]) ==
            if c.BlockCommit? then BlockHeights(d.history) + [c.height] else BlockHeights(d.history)
    ensures Taken(d.history + [c], DaoSnapshot) == Taken(d.history, DaoSnapshot) + if c.DaoCommit? then 1 else 0
    ensures Taken(d.history + [c], V7Snapshot) == Taken(d.history, V7Snapshot) + if c.V7Commit? then 1 else 0
  {
    hide ExecOps, Clean, OpsOf, AllClean, Replay, BlockHeights, Taken;
    ReplayNext(cfg, d.history, c);
    AllCleanNext(cfg, d.history, c);
    BlockHeightsNext(d.history, c);
    TakenNext(d.history, c, DaoSnapshot);
    TakenNext(d.history, c, V7Snapshot);
  }

  lemma ExtendedSnapshot(cfg: Config, d: Durable, c: Commit, s: Snapshot)
    requires SnapshotOk(cfg, d, s)
    requires Takes(c, s) ==> c.height == DueAt(cfg, s)
    requires c.BlockCommit? && 0 < DueAt(cfg, s) <= c.height ==> StateOf(d.db, s).Some?
    requires StateOf(Extended(cfg, d, c).db, s).Some? ==> StateOf(d.db, s).Some? || Takes(c, s)
    ensures SnapshotOk(cfg, Extended(cfg, d, c), s)
  {
    hide ExecOps, OpsOf;
    var history, after := d.history, d.history + [c];
    forall j | 0 <= j <= |history| && TakenBefore(history, s, j)
      ensures TakenBefore(after, s, j) && TakenBefore(after, s, |after|)
    {
      var i :| 0 <= i < j && Takes(history[i], s);
      assert Takes(after[i], s);
    }
    forall j | 0 <= j < |after| && after[j].BlockCommit? && after[j].height >= DueAt(cfg, s) > 0
      ensures TakenBefore(after, s, j)
    {
      if j < |history| {
        assert after[j] == history[j];
      }
    }
    if Takes(c, s) {
      assert Takes(after[|history|], s);
    }
  }

  lemma {:induction false} DaoCommitKeeps(cfg: Config, d: Durable, h: nat, w: DaoWork)
    requires AtBlock(cfg, d, h) && Clean(DaoOps(h, w))
    requires 0 < cfg.daoCutoff <= h && d.db.daoState.None?
    ensures AtBlock(cfg, Extended(cfg, d, DaoCommit(h, w)), h)
    ensures Completed(Extended(cfg, d, DaoCommit(h, w)).db.daoState)
  {
    hide ExecOps, DaoOps, V7Ops, BlockOps, Clean, AllClean, Replay, BlockHeights, Taken, InOrder, DaoOk, V7Ok,
         SnapshotOk, MayIndex;
    var c := DaoCommit(h, w);
    var e := Extended(cfg, d, c);
    ExtendedHistory(cfg, d, c);
    DaoEffect(d.db, h, w);
    assert e.db == ExecOps(d.db, DaoOps(h, w));
    SnapshotKeepsDao(cfg, d.db, e.db, BlockHeights(d.history), Taken(d.history, DaoSnapshot),
                     Taken(d.history, V7Snapshot), h);
    ExtendedSnapshot(cfg, d, c, DaoSnapshot);
    ExtendedSnapshot(cfg, d, c, V7Snapshot);
  }

  lemma SnapshotKeepsDao(cfg: Config, db: Db, after: Db, heights: seq<nat>, taken: nat, v7Taken: nat, h: nat)
    requires 0 < cfg.daoCutoff <= h && db.daoState.None?
    requires InOrder(heights, db.height) && MayIndex(heights, db.height, h)
    requires DaoOk(cfg, db, heights, taken) && V7Ok(cfg, db, heights, v7Taken)
    requires after == db.(daoWrites := after.daoWrites, daoState := Some(SnapshotState(h, true)))
    requires forall i :: |db.daoWrites| <= i < |after.daoWrites| ==> after.daoWrites[i] == DaoWrite(h, BySnapshot)
    ensures h == cfg.daoCutoff && DaoOk(cfg, after, heights, taken + 1) && V7Ok(cfg, after, heights, v7Taken)
  {
    assert forall i :: 0 <= i < |after.daoWrites| ==> after.daoWrites[i].origin == BySnapshot;
  }

  lemma {:induction false} V7CommitKeeps(cfg: Config, d: Durable, h: nat, w: V7Work)
    requires AtBlock(cfg, d, h) && Clean(V7Ops(cfg, w))
    requires 0 < cfg.v7Upgrade <= h && d.db.v7State.None?
    ensures AtBlock(cfg, Extended(cfg, d, V7Commit(h, w)), h)
    ensures Extended(cfg, d, V7Commit(h, w)).db.daoState == d.db.daoState
    ensures Completed(Extended(cfg, d, V7Commit(h, w)).db.v7State)
  {
    hide ExecOps, DaoOps, V7Ops, BlockOps, Clean, AllClean, Replay, BlockHeights, Taken, InOrder, DaoOk, V7Ok,
         SnapshotOk, MayIndex;
    var c := V7Commit(h, w);
    var e := Extended(cfg, d, c);
    ExtendedHistory(cfg, d, c);
    V7Effect(cfg, d.db, w);
    assert e.db == ExecOps(d.db, V7Ops(cfg, w));
    SnapshotKeepsV7(cfg, d.db, e.db, h, BlockHeights(d.history), Taken(d.history, DaoSnapshot),
                    Taken(d.history, V7Snapshot));
    ExtendedSnapshot(cfg, d, c, DaoSnapshot);
    ExtendedSnapshot(cfg, d, c, V7Snapshot);
  }

  lemma SnapshotKeepsV7(cfg: Config, db: Db, after: Db, h: nat, heights: seq<nat>, taken: nat, v7Taken: nat)
    requires 0 < cfg.v7Upgrade <= h && db.v7State.None?
    requires InOrder(heights, db.height) && MayIndex(heights, db.height, h)
    requires DaoOk(cfg, db, heights, taken) && V7Ok(cfg, db, heights, v7Taken)
    requires after.height == db.height && after.daoState == db.daoState && after.daoWrites == db.daoWrites
    requires after.v7State == Some(SnapshotState(cfg.v7Upgrade, true))
    requires after.stakeTxs == RelinkAll(db.stakeTxs, V7_LEGACY_POOL_ID, cfg.v7Upgrade)
    ensures h == cfg.v7Upgrade && DaoOk(cfg, after, heights, taken) && V7Ok(cfg, after, heights, v7Taken + 1)
  {
  }

  lemma {:induction false} BlockCommitKeeps(cfg: Config, d: Durable, h: nat, w: BlockWork)
    requires AtBlock(cfg, d, h) && Clean(BlockOps(cfg, h, w))
    requires cfg.daoCutoff == 0 || h < cfg.daoCutoff || Completed(d.db.daoState)
    requires cfg.v7Upgrade == 0 || h < cfg.v7Upgrade || Completed(d.db.v7State)
    ensures var e := Extended(cfg, d, BlockCommit(h, w));
            DurableOk(cfg, e) && e.db.height == h && BlockHeights(e.history) == BlockHeights(d.history) + [h]
  {
    var c := BlockCommit(h, w);
    var e := Extended(cfg, d, c);
    ExtendedHistory(cfg, d, c);
    BlockOpsWrites(cfg, h, w);
    BlockWritesEffect(cfg, h, d.db, Writes(BlockOps(cfg, h, w)));
    assert Grown(cfg, h, d.db, e.db) && e.db.height == h;
    hide ExecOps, ExecAll, Writes, BlockOps, BlockWrites, Clean, AllClean, Replay, BlockHeights, Taken;
    InOrderNext(BlockHeights(d.history), d.db.height, h);
    hide SnapshotOk;
    ExtendedSnapshot(cfg, d, c, DaoSnapshot);
    ExtendedSnapshot(cfg, d, c, V7Snapshot);
    GrownKeeps(cfg, d.db, e.db, BlockHeights(d.history), Taken(d.history, DaoSnapshot),
               Taken(d.history, V7Snapshot), h);
  }

  lemma GrownKeeps(cfg: Config, db: Db, after: Db, heights: seq<nat>, taken: nat, v7Taken: nat, h: nat)
    requires Grown(cfg, h, db, after) && after.height == h
    requires InOrder(heights, db.height) && MayIndex(heights, db.height, h)
    requires DaoOk(cfg, db, heights, taken) && V7Ok(cfg, db, heights, v7Taken)
    requires cfg.daoCutoff == 0 || h < cfg.daoCutoff || Completed(db.daoState)
    requires cfg.v7Upgrade == 0 || h < cfg.v7Upgrade || Completed(db.v7State)
    ensures DaoOk(cfg, after, heights + [h], taken) && V7Ok(cfg, after, heights + [h], v7Taken)
  {
    assert forall i :: 0 <= i < |db.daoWrites| ==> after.daoWrites[i] == db.daoWrites[i];
    assert forall i :: 0 <= i < |db.stakeTxs| ==> after.stakeTxs[i] == db.stakeTxs[i];
  }
}
