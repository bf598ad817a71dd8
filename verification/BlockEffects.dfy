/** What each kind of transaction of the block loop leaves in the tables, read off the work it was given
    alone: src/sync/sync_blocks.ts, the two snapshot routines, and the cutoff of src/constants/daodao_cutoff.ts. */
module BlockEffects {
  import opened Wrappers
  import opened Transactions
  import opened BlockLoop
  import opened BlockRuns
  import opened RunTheorems

  // -------------------------------------------------------------------------
  // The work of a block's handlers
  // -------------------------------------------------------------------------

  function Handlers(w: BlockWork): seq<HandlerOp> {
    w.before + w.after
  }

  function DaoStatements(ops: seq<HandlerOp>): nat {
    if ops == [] then 0 else DaoStatements(ops[..|ops| - 1]) + if ops[|ops| - 1].DaoStatement? then 1 else 0
  }

  // One entry for each statement of a DAO handler at or above the cutoff, if there is a cutoff.
  function DaoEntries(cfg: Config, h: nat, ops: seq<HandlerOp>): seq<DaoWrite> {
    if cfg.daoCutoff == 0 || h >= cfg.daoCutoff then seq(DaoStatements(ops), _ => DaoWrite(h, ByEvent)) else []
  }

  function StakeRows(h: nat, ops: seq<HandlerOp>): seq<StakeTx> {
    if ops == [] then []
    else
      var last := ops[|ops| - 1];
      StakeRows(h, ops[..|ops| - 1]) + if last.StakeTxStatement? then [StakeTx(h, last.poolId)] else []
  }

  predicate Touches(op: HandlerOp, key: string) {
    (op.OtherPut? && op.key == key) || (op.OtherRemove? && key in op.keys)
  }

  predicate LastTouch(ops: seq<HandlerOp>, key: string, i: int) {
    0 <= i < |ops| && Touches(ops[i], key) && forall j :: i < j < |ops| ==> !Touches(ops[j], key)
  }

  predicate Untouched(ops: seq<HandlerOp>, key: string) {
    forall i :: 0 <= i < |ops| ==> !Touches(ops[i], key)
  }

  predicate SameRow(before: map<string, string>, key: string, after: map<string, string>) {
    (key in after <==> key in before) && (key in before ==> after[key] == before[key])
  }

  // A key holds what was put last, or nothing if it was removed last, or what it held.
  ghost predicate RowLeft(before: map<string, string>, ops: seq<HandlerOp>, key: string, after: map<string, string>) {
    && (forall i :: LastTouch(ops, key, i) ==>
          if ops[i].OtherPut? then key in after && after[key] == ops[i].value else key !in after)
    && (Untouched(ops, key) ==> SameRow(before, key, after))
  }

  ghost predicate HandlersLeave(cfg: Config, h: nat, before: Db, ops: seq<HandlerOp>, after: Db) {
    && after == before.(rows := after.rows, daoWrites := before.daoWrites + DaoEntries(cfg, h, ops),
                        stakeTxs := before.stakeTxs + StakeRows(h, ops))
    && forall key :: RowLeft(before.rows, ops, key, after.rows)
  }

  // The statement reaches the server and is rejected, or the handler raises.
  predicate GoesWrong(cfg: Config, h: nat, op: HandlerOp) {
    match op
    case DaoStatement(fails, _) => fails && (cfg.daoCutoff == 0 || h >= cfg.daoCutoff)
    case StakeTxStatement(_, fails) => fails
    case OtherPut(_, _, fails, _) => fails
    case OtherRemove(_, fails, _) => fails
    case HandlerRaise => true
  }

  predicate NoneGoesWrong(cfg: Config, h: nat, ops: seq<HandlerOp>) {
    forall i :: 0 <= i < |ops| ==> !GoesWrong(cfg, h, ops[i])
  }

  lemma RowLeftNext(before: map<string, string>, ops: seq<HandlerOp>, op: HandlerOp, key: string,
                    mid: map<string, string>, after: map<string, string>)
    requires RowLeft(before, ops, key, mid)
    requires Touches(op, key) ==> if op.OtherPut? then key in after && after[key] == op.value else key !in after
    requires !Touches(op, key) ==> SameRow(mid, key, after)
    ensures RowLeft(before, ops + [op], key, after)
  {
    var more := ops + [op];
    assert more[|ops|] == op && forall i :: 0 <= i < |ops| ==> more[i] == ops[i];
    forall i | LastTouch(more, key, i)
      ensures if more[i].OtherPut? then key in after && after[key] == more[i].value else key !in after
    {
      if i < |ops| {
        assert LastTouch(ops, key, i);
      }
    }
  }

  lemma DaoEntriesNext(cfg: Config, h: nat, ops: seq<HandlerOp>, op: HandlerOp)
    ensures DaoEntries(cfg, h, ops + [op]) ==
            DaoEntries(cfg, h, ops)
            + if op.DaoStatement? && (cfg.daoCutoff == 0 || h >= cfg.daoCutoff) then [DaoWrite(h, ByEvent)] else []
    ensures StakeRows(h, ops + [op]) ==
            StakeRows(h, ops) + if op.StakeTxStatement? then [StakeTx(h, op.poolId)] else []
  {
    assert (ops + [op])[..|ops|] == ops;
  }

  // One handler statement on the server.
  lemma OneHandler(cfg: Config, h: nat, db: Db, op: HandlerOp)
    ensures var after := ExecOps(db, Emit(cfg, h, op));
            && after == db.(rows := after.rows,
                            daoWrites := db.daoWrites
                              + (if op.DaoStatement? && (cfg.daoCutoff == 0 || h >= cfg.daoCutoff)
                                 then [DaoWrite(h, ByEvent)] else []),
                            stakeTxs := db.stakeTxs
                              + if op.StakeTxStatement? then [StakeTx(h, op.poolId)] else [])
            && forall key ::
                 && (Touches(op, key) ==>
                       if op.OtherPut? then key in after.rows && after.rows[key] == op.value else key !in after.rows)
                 && (!Touches(op, key) ==> SameRow(db.rows, key, after.rows))
    ensures Clean(Emit(cfg, h, op)) <==> !GoesWrong(cfg, h, op)
  {
    var out := Emit(cfg, h, op);
    assert db.daoWrites + [] == db.daoWrites && db.stakeTxs + [] == db.stakeTxs;
    if out == [] {
      NoWrites(db);
    } else if out[0].Sql? {
      OneWrite(db, out[0]);
      hide ExecOps;
    } else {
      assert out == [Raise] && out[1..] == [] && Writes(out) == [] + Writes(out[1..]);
      NoWrites(db);
    }
  }

  lemma CleanConcat(a: seq<Op>, b: seq<Op>)
    ensures Clean(a + b) <==> Clean(a) && Clean(b)
  {
    if Clean(a + b) {
      CleanParts(a, b);
    }
  }

  lemma CleanOne(op: Op)
    ensures Clean([op]) <==> op.Sql? && !op.fails
  {
    assert [op][0] == op;
  }

  lemma Chained(cfg: Config, h: nat, before: Db, ops: seq<HandlerOp>, op: HandlerOp, mid: Db, after: Db)
    requires HandlersLeave(cfg, h, before, ops, mid) && after == ExecOps(mid, Emit(cfg, h, op))
    ensures HandlersLeave(cfg, h, before, ops + [op], after)
  {
    OneHandler(cfg, h, mid, op);
    DaoEntriesNext(cfg, h, ops, op);
    hide ExecOps, Emit, DaoEntries, StakeRows, Touches, SameRow, RowLeft;
    forall key
      ensures RowLeft(before.rows, ops + [op], key, after.rows)
    {
      RowLeftNext(before.rows, ops, op, key, mid.rows, after.rows);
    }
  }

  lemma NoneMore(cfg: Config, h: nat, ops: seq<HandlerOp>, op: HandlerOp)
    ensures NoneGoesWrong(cfg, h, ops + [op]) <==> NoneGoesWrong(cfg, h, ops) && !GoesWrong(cfg, h, op)
  {
    hide GoesWrong;
    var more := ops + [op];
    assert more[|ops|] == op && forall i :: 0 <= i < |ops| ==> more[i] == ops[i];
  }

  lemma EmitAllNext(cfg: Config, h: nat, ops: seq<HandlerOp>, op: HandlerOp)
    ensures EmitAll(cfg, h, ops + [op]) == EmitAll(cfg, h, ops) + Emit(cfg, h, op)
  {
    assert (ops + [op])[..|ops|] == ops;
  }

  lemma {:induction false} HandlersDo(cfg: Config, h: nat, db: Db, ops: seq<HandlerOp>)
    ensures HandlersLeave(cfg, h, db, ops, ExecOps(db, EmitAll(cfg, h, ops)))
    ensures Clean(EmitAll(cfg, h, ops)) <==> NoneGoesWrong(cfg, h, ops)
  {
    hide ExecOps, Emit, Clean, GoesWrong, Touches, SameRow;
    if ops == [] {
      NoHandlers(cfg, h, db);
    } else {
      hide EmitAll, HandlersLeave, NoneGoesWrong;
      var init, last := ops[..|ops| - 1], ops[|ops| - 1];
      assert ops == init + [last];
      HandlersDo(cfg, h, db, init);
      EmitAllNext(cfg, h, init, last);
      ExecOpsConcat(db, EmitAll(cfg, h, init), Emit(cfg, h, last));
      CleanConcat(EmitAll(cfg, h, init), Emit(cfg, h, last));
      Chained(cfg, h, db, init, last, ExecOps(db, EmitAll(cfg, h, init)), ExecOps(db, EmitAll(cfg, h, ops)));
      OneHandler(cfg, h, db, last);
      NoneMore(cfg, h, init, last);
    }
  }

  lemma NoHandlers(cfg: Config, h: nat, db: Db)
    ensures HandlersLeave(cfg, h, db, [], ExecOps(db, EmitAll(cfg, h, []))) && Clean(EmitAll(cfg, h, []))
  {
    NoWrites(db);
    hide ExecOps;
    assert db.daoWrites + DaoEntries(cfg, h, []) == db.daoWrites && db.stakeTxs + StakeRows(h, []) == db.stakeTxs;
  }

  lemma {:induction false} EmitAllConcat(cfg: Config, h: nat, a: seq<HandlerOp>, b: seq<HandlerOp>)
    ensures EmitAll(cfg, h, a + b) == EmitAll(cfg, h, a) + EmitAll(cfg, h, b)
  {
    hide Emit;
    if b == [] {
      assert a + b == a;
    } else {
      assert (a + b)[..|a + b| - 1] == a + b[..|b| - 1];
      EmitAllConcat(cfg, h, a, b[..|b| - 1]);
    }
  }

  // -------------------------------------------------------------------------
  // A block
  // -------------------------------------------------------------------------

  // What a block leaves: what its handlers do, its height, and no row its sweep removes.
  ghost predicate BlockLeaves(cfg: Config, h: nat, before: Db, w: BlockWork, after: Db) {
    && after == before.(height := h, rows := after.rows,
                        daoWrites := before.daoWrites + DaoEntries(cfg, h, Handlers(w)),
                        stakeTxs := before.stakeTxs + StakeRows(h, Handlers(w)))
    && forall key ::
         if key in w.expired then key !in after.rows else RowLeft(before.rows, Handlers(w), key, after.rows)
  }

  predicate BlockGoesWell(cfg: Config, h: nat, w: BlockWork) {
    && !w.connectFails && !w.beginFails && !w.commitFails && !w.heightFails && !w.sweepFails
    && NoneGoesWrong(cfg, h, Handlers(w))
  }

  // The order of a block's writes but for the height, which may be stored last.
  lemma BlockOpsDo(cfg: Config, h: nat, db: Db, w: BlockWork)
    ensures ExecOps(db, BlockOps(cfg, h, w)) ==
            Exec(Exec(ExecOps(db, EmitAll(cfg, h, Handlers(w))), SetHeight(h)), Remove(w.expired))
    ensures Clean(BlockOps(cfg, h, w)) <==> !w.heightFails && !w.sweepFails && Clean(EmitAll(cfg, h, Handlers(w)))
  {
    var a, b := EmitAll(cfg, h, w.before), EmitAll(cfg, h, w.after);
    var up, sweep := Sql(SetHeight(h), w.heightFails, false), Sql(Remove(w.expired), w.sweepFails, false);
    EmitAllConcat(cfg, h, w.before, w.after);
    EmittedWrites(cfg, h, w.after);
    ExecOpsConcat(db, a + [up] + b, [sweep]);
    ExecOpsConcat(db, a + [up], b);
    ExecOpsConcat(db, a, [up]);
    ExecOpsConcat(db, a, b);
    OneWrite(ExecOps(db, a), up);
    HeightStoredLast(cfg, h, ExecOps(db, a), Writes(b));
    OneWrite(ExecOps(db, a + [up] + b), sweep);
    CleanConcat(a + [up] + b, [sweep]);
    CleanConcat(a + [up], b);
    CleanConcat(a, [up]);
    CleanConcat(a, b);
    CleanOne(up);
    CleanOne(sweep);
    hide EmitAll, Clean, ExecAll, Writes, Exec;
  }

  lemma SweptRows(cfg: Config, h: nat, before: Db, w: BlockWork, mid: Db)
    requires HandlersLeave(cfg, h, before, Handlers(w), mid)
    ensures BlockLeaves(cfg, h, before, w, Exec(Exec(mid, SetHeight(h)), Remove(w.expired)))
  {
    hide DaoEntries, StakeRows, Handlers, RowLeft;
    var after := Exec(Exec(mid, SetHeight(h)), Remove(w.expired));
    forall key | key !in w.expired
      ensures RowLeft(before.rows, Handlers(w), key, after.rows)
    {
      RowStays(before.rows, Handlers(w), key, mid.rows, after.rows);
    }
  }

  lemma RowStays(before: map<string, string>, ops: seq<HandlerOp>, key: string,
                 mid: map<string, string>, after: map<string, string>)
    requires RowLeft(before, ops, key, mid) && SameRow(mid, key, after)
    ensures RowLeft(before, ops, key, after)
  {
  }

  /** A block is committed exactly when no statement that reaches the server is rejected, no handler raises
      and nothing goes wrong around it. Then it has logged one write for each DAO statement, if its height is
      not below a cutoff, and none otherwise; added its stake rows in order; left under every other key what
      was put or removed last; and stored its height. */
  lemma BlockTried(cfg: Config, d: Durable, h: nat, w: BlockWork)
    requires w.late == []
    ensures var t := Try(cfg, d, BlockCommit(h, w));
            && (t.ok <==> BlockGoesWell(cfg, h, w))
            && (if t.ok then BlockLeaves(cfg, h, d.db, w, t.durable.db) else t.durable.db == d.db)
            && t.durable.history == d.history + if t.ok then [BlockCommit(h, w)] else []
  {
    TryTellsTheTruth(cfg, d, BlockCommit(h, w));
    BlockOpsDo(cfg, h, d.db, w);
    HandlersDo(cfg, h, d.db, Handlers(w));
    SweptRows(cfg, h, d.db, w, ExecOps(d.db, EmitAll(cfg, h, Handlers(w))));
    hide Try, ExecOps, BlockOps, EmitAll, Clean, HandlersLeave, BlockLeaves, NoneGoesWrong, Exec;
  }

  // -------------------------------------------------------------------------
  // The two snapshots
  // -------------------------------------------------------------------------

  predicate DaoGoesWell(w: DaoWork) {
    && !w.connectFails && !w.beginFails && !w.commitFails && !w.startFails && !w.finishFails
    && DaoRowsGoWell(w.ops)
  }

  predicate DaoRowsGoWell(ops: seq<SnapshotOp>) {
    forall i :: 0 <= i < |ops| ==> ops[i].SnapshotRow? && !ops[i].fails
  }

  lemma {:induction false} DaoRowsDo(db: Db, h: nat, ops: seq<SnapshotOp>)
    requires DaoRowsGoWell(ops)
    ensures ExecOps(db, EmitDao(h, ops)) == db.(daoWrites := db.daoWrites + seq(|ops|, _ => DaoWrite(h, BySnapshot)))
  {
    if ops == [] {
      assert EmitDao(h, ops) == [];
      NoWrites(db);
    } else {
      var init, last := ops[..|ops| - 1], ops[|ops| - 1];
      DaoRowsDo(db, h, init);
      var op := Sql(LogDaoWrite(DaoWrite(h, BySnapshot)), last.fails, last.swallowed);
      assert EmitDao(h, ops) == EmitDao(h, init) + [op];
      ExecOpsConcat(db, EmitDao(h, init), [op]);
      OneWrite(ExecOps(db, EmitDao(h, init)), op);
      hide ExecOps;
    }
  }

  /** The DAO snapshot is committed exactly when nothing of it goes wrong, and has then logged one write for
      each of its rows and stored that it was completed at its height. */
  lemma DaoTried(cfg: Config, d: Durable, h: nat, w: DaoWork)
    ensures var t := Try(cfg, d, DaoCommit(h, w));
            && (t.ok <==> DaoGoesWell(w))
            && t.durable.db == if !t.ok then d.db
                               else d.db.(daoWrites := d.db.daoWrites + seq(|w.ops|, _ => DaoWrite(h, BySnapshot)),
                                          daoState := Some(SnapshotState(h, true)))
  {
    TryTellsTheTruth(cfg, d, DaoCommit(h, w));
    DaoCleans(h, w);
    if DaoGoesWell(w) {
      DaoOpsDo(d.db, h, w);
    }
    hide Try, ExecOps, DaoOps, Clean, DaoRowsGoWell;
  }

  lemma DaoCleans(h: nat, w: DaoWork)
    ensures Clean(DaoOps(h, w)) <==> !w.startFails && !w.finishFails && DaoRowsGoWell(w.ops)
  {
    var first, last := Sql(StartDao(h), w.startFails, false), Sql(FinishDao, w.finishFails, false);
    var mid := EmitDao(h, w.ops);
    assert Clean(mid) <==> DaoRowsGoWell(w.ops) by {
      assert forall i :: 0 <= i < |w.ops| ==>
                 (mid[i].Sql? && !mid[i].fails <==> w.ops[i].SnapshotRow? && !w.ops[i].fails);
    }
    hide Clean, EmitDao;
    CleanConcat([first] + mid, [last]);
    CleanConcat([first], mid);
    CleanOne(first);
    CleanOne(last);
  }

  lemma DaoOpsDo(db: Db, h: nat, w: DaoWork)
    requires DaoRowsGoWell(w.ops)
    ensures ExecOps(db, DaoOps(h, w)) ==
            db.(daoWrites := db.daoWrites + seq(|w.ops|, _ => DaoWrite(h, BySnapshot)),
                daoState := Some(SnapshotState(h, true)))
  {
    var first, last := Sql(StartDao(h), w.startFails, false), Sql(FinishDao, w.finishFails, false);
    var mid := EmitDao(h, w.ops);
    hide ExecOps, EmitDao;
    ExecOpsConcat(db, [first] + mid, [last]);
    ExecOpsConcat(db, [first], mid);
    OneWrite(db, first);
    DaoRowsDo(Exec(db, first.write), h, w.ops);
    OneWrite(ExecOps(db, [first] + mid), last);
  }

  predicate V7RowsGoWell(ops: seq<V7Op>) {
    forall i :: 0 <= i < |ops| ==> ops[i].V7Row? && !ops[i].fails
  }

  predicate V7GoesWell(w: V7Work) {
    && !w.connectFails && !w.beginFails && !w.commitFails && !w.startFails && !w.relinkFails && !w.finishFails
    && V7RowsGoWell(w.before + w.after)
  }

  // Each row of the snapshot is put under its key.
  function AsPuts(ops: seq<V7Op>): (puts: seq<HandlerOp>)
    ensures |puts| == |ops|
  {
    seq(|ops|, i requires 0 <= i < |ops| =>
      if ops[i].V7Row? then OtherPut(ops[i].key, ops[i].value, ops[i].fails, ops[i].swallowed) else HandlerRaise)
  }

  predicate RelinkedTo(cfg: Config, before: StakeTx, after: StakeTx) {
    && after.height == before.height
    && after.poolId == if before.poolId == "" && before.height < cfg.v7Upgrade then "zero" else before.poolId
  }

  predicate AllRelinked(cfg: Config, before: seq<StakeTx>, after: seq<StakeTx>) {
    |after| == |before| && forall i :: 0 <= i < |before| ==> RelinkedTo(cfg, before[i], after[i])
  }

  ghost predicate RowsLeft(before: map<string, string>, ops: seq<HandlerOp>, after: map<string, string>) {
    forall key :: RowLeft(before, ops, key, after)
  }

  // Rows of other tables do not depend on the relinking between them.
  ghost predicate V7Leaves(cfg: Config, before: Db, w: V7Work, after: Db) {
    && after == before.(rows := after.rows, stakeTxs := after.stakeTxs,
                        v7State := Some(SnapshotState(cfg.v7Upgrade, true)))
    && AllRelinked(cfg, before.stakeTxs, after.stakeTxs)
    && RowsLeft(before.rows, AsPuts(w.before + w.after), after.rows)
  }

  lemma NoneOfBoth(a: seq<HandlerOp>, b: seq<HandlerOp>, key: string)
    requires Untouched(a + b, key)
    ensures Untouched(a, key) && Untouched(b, key)
  {
    hide Touches;
    assert forall i :: 0 <= i < |a| ==> (a + b)[i] == a[i];
    assert forall i :: 0 <= i < |b| ==> (a + b)[|a| + i] == b[i];
  }

  lemma LastOfBoth(a: seq<HandlerOp>, b: seq<HandlerOp>, key: string, i: int)
    requires LastTouch(a + b, key, i)
    ensures if i < |a| then LastTouch(a, key, i) && Untouched(b, key) else LastTouch(b, key, i - |a|)
  {
    hide Touches;
    assert forall j :: 0 <= j < |a| ==> (a + b)[j] == a[j];
    assert forall j :: 0 <= j < |b| ==> (a + b)[|a| + j] == b[j];
  }

  lemma RowJoins(before: map<string, string>, a: seq<HandlerOp>, b: seq<HandlerOp>, key: string,
                 mid: map<string, string>, after: map<string, string>)
    requires RowLeft(before, a, key, mid) && RowLeft(mid, b, key, after)
    ensures RowLeft(before, a + b, key, after)
  {
    hide Touches, Untouched;
    assert forall i :: 0 <= i < |b| ==> (a + b)[|a| + i] == b[i];
    forall i | LastTouch(a + b, key, i)
      ensures if (a + b)[i].OtherPut? then key in after && after[key] == (a + b)[i].value else key !in after
    {
      LastOfBoth(a, b, key, i);
    }
    if Untouched(a + b, key) {
      NoneOfBoth(a, b, key);
    }
  }

  lemma RowsJoin(before: map<string, string>, a: seq<HandlerOp>, b: seq<HandlerOp>,
                 mid: map<string, string>, after: map<string, string>)
    requires RowsLeft(before, a, mid) && RowsLeft(mid, b, after)
    ensures RowsLeft(before, a + b, after)
  {
    hide RowLeft;
    forall key
      ensures RowLeft(before, a + b, key, after)
    {
      RowJoins(before, a, b, key, mid, after);
    }
  }

  // The rows of the snapshot reach the client as the same puts by a handler would.
  lemma {:induction false} EmitsPuts(cfg: Config, h: nat, ops: seq<V7Op>)
    ensures EmitV7(ops) == EmitAll(cfg, h, AsPuts(ops))
    ensures V7RowsGoWell(ops) <==> NoneGoesWrong(cfg, h, AsPuts(ops))
  {
    hide EmitAll, Emit, NoneGoesWrong;
    if ops == [] {
      EmitsNothing(cfg, h);
      assert EmitV7(ops) == [] && AsPuts(ops) == [];
    } else {
      var init, last := ops[..|ops| - 1], ops[|ops| - 1];
      var put := AsPuts([last])[0];
      EmitsPuts(cfg, h, init);
      EmitAllNext(cfg, h, AsPuts(init), put);
      NoneMore(cfg, h, AsPuts(init), put);
      OnePut(cfg, h, last);
      assert ops == init + [last] && AsPuts(ops) == AsPuts(init) + [put];
      assert EmitV7(ops) == EmitV7(init) + EmitV7([last]);
      BothGoWell(init, [last]);
    }
  }

  lemma EmitsNothing(cfg: Config, h: nat)
    ensures EmitAll(cfg, h, []) == [] && NoneGoesWrong(cfg, h, [])
  {
  }

  lemma OnePut(cfg: Config, h: nat, op: V7Op)
    ensures EmitV7([op]) == Emit(cfg, h, AsPuts([op])[0])
    ensures V7RowsGoWell([op]) <==> !GoesWrong(cfg, h, AsPuts([op])[0])
  {
    assert [op][0] == op;
  }

  lemma {:induction false} NothingElse(cfg: Config, h: nat, ops: seq<V7Op>)
    ensures DaoEntries(cfg, h, AsPuts(ops)) == [] && StakeRows(h, AsPuts(ops)) == []
  {
    if ops != [] {
      NothingElse(cfg, h, ops[..|ops| - 1]);
      assert AsPuts(ops)[..|ops| - 1] == AsPuts(ops[..|ops| - 1]);
    }
  }

  lemma V7RowsDo(db: Db, ops: seq<V7Op>)
    ensures var after := ExecOps(db, EmitV7(ops));
            after == db.(rows := after.rows) && RowsLeft(db.rows, AsPuts(ops), after.rows)
    ensures Clean(EmitV7(ops)) <==> V7RowsGoWell(ops)
  {
    var cfg := Config(0, 0);
    EmitsPuts(cfg, 0, ops);
    HandlersDo(cfg, 0, db, AsPuts(ops));
    NothingElse(cfg, 0, ops);
    hide ExecOps, EmitV7, EmitAll, Clean, NoneGoesWrong, V7RowsGoWell, AsPuts, DaoEntries, StakeRows, RowLeft;
    assert db.daoWrites + [] == db.daoWrites && db.stakeTxs + [] == db.stakeTxs;
  }

  /** The v7 snapshot is committed exactly when nothing of it goes wrong; it has then put its rows, given every
      stake row below the upgrade height that had no pool id the legacy one, and stored its completion. */
  lemma V7Tried(cfg: Config, d: Durable, h: nat, w: V7Work)
    ensures var t := Try(cfg, d, V7Commit(h, w));
            && (t.ok <==> V7GoesWell(w))
            && (if t.ok then V7Leaves(cfg, d.db, w, t.durable.db) else t.durable.db == d.db)
  {
    TryTellsTheTruth(cfg, d, V7Commit(h, w));
    V7Cleans(cfg, w);
    V7OpsDo(cfg, d.db, w);
    hide Try, ExecOps, V7Ops, V7Leaves, V7RowsGoWell, Clean;
  }

  lemma V7Cleans(cfg: Config, w: V7Work)
    ensures Clean(V7Ops(cfg, w)) <==>
              !w.startFails && !w.relinkFails && !w.finishFails && V7RowsGoWell(w.before + w.after)
  {
    hide EmitV7, Clean;
    var first := Sql(StartV7(cfg.v7Upgrade), w.startFails, false);
    var relink := Sql(Relink(V7_LEGACY_POOL_ID, cfg.v7Upgrade), w.relinkFails, false);
    var last := Sql(FinishV7, w.finishFails, false);
    var a, b := EmitV7(w.before), EmitV7(w.after);
    CleanConcat([first] + a + [relink] + b, [last]);
    CleanConcat([first] + a + [relink], b);
    CleanConcat([first] + a, [relink]);
    CleanConcat([first], a);
    V7RowsDo(FreshDb, w.before);
    V7RowsDo(FreshDb, w.after);
    BothGoWell(w.before, w.after);
    CleanOne(first);
    CleanOne(relink);
    CleanOne(last);
  }

  lemma BothGoWell(a: seq<V7Op>, b: seq<V7Op>)
    ensures V7RowsGoWell(a + b) <==> V7RowsGoWell(a) && V7RowsGoWell(b)
  {
    assert forall i :: 0 <= i < |a| ==> a[i] == (a + b)[i];
    assert forall i :: 0 <= i < |b| ==> b[i] == (a + b)[|a| + i];
  }

  lemma V7OpsDo(cfg: Config, db: Db, w: V7Work)
    ensures V7Leaves(cfg, db, w, ExecOps(db, V7Ops(cfg, w)))
  {
    hide EmitV7, ExecOps, RowsLeft, Complete;
    var first := Sql(StartV7(cfg.v7Upgrade), w.startFails, false);
    var relink := Sql(Relink(V7_LEGACY_POOL_ID, cfg.v7Upgrade), w.relinkFails, false);
    var last := Sql(FinishV7, w.finishFails, false);
    var a, b := EmitV7(w.before), EmitV7(w.after);
    ExecOpsConcat(db, [first] + a + [relink] + b, [last]);
    ExecOpsConcat(db, [first] + a + [relink], b);
    ExecOpsConcat(db, [first] + a, [relink]);
    ExecOpsConcat(db, [first], a);
    OneWrite(db, first);
    var started := Exec(db, first.write);
    V7RowsDo(started, w.before);
    var put := ExecOps(started, a);
    OneWrite(put, relink);
    V7RowsDo(Exec(put, relink.write), w.after);
    var after := ExecOps(Exec(put, relink.write), b);
    OneWrite(after, last);
    RowsJoin(db.rows, AsPuts(w.before), AsPuts(w.after), put.rows, after.rows);
    assert AsPuts(w.before + w.after) == AsPuts(w.before) + AsPuts(w.after);
    V7Finished(cfg, db, put, after);
  }

  lemma V7Finished(cfg: Config, db: Db, put: Db, after: Db)
    requires put == Exec(db, StartV7(cfg.v7Upgrade)).(rows := put.rows)
    requires after == Exec(put, Relink(V7_LEGACY_POOL_ID, cfg.v7Upgrade)).(rows := after.rows)
    ensures var done := Exec(after, FinishV7);
            && done == db.(rows := after.rows, stakeTxs := done.stakeTxs,
                           v7State := Some(SnapshotState(cfg.v7Upgrade, true)))
            && AllRelinked(cfg, db.stakeTxs, done.stakeTxs)
  {
  }

  // -------------------------------------------------------------------------
  // One attempt at a block, snapshots first
  // -------------------------------------------------------------------------

  // The database the block's own transaction starts from.
  function BeforeBlock(cfg: Config, d: Durable, h: nat, t: Tick): Durable
    requires t.Ready?
  {
    EnsureV7(cfg, EnsureDao(cfg, d, h, t.dao).durable, h, t.v7).durable
  }

  // A snapshot in front of the block is not due, was completed before, or is taken now and goes well.
  predicate DaoGetsBy(cfg: Config, db: Db, h: nat, w: DaoWork) {
    || cfg.daoCutoff == 0 || h < cfg.daoCutoff
    || (!w.stateReadFails && (DaoGoesWell(w) || (db.daoState.Some? && db.daoState.value.completed)))
  }

  predicate V7GetsBy(cfg: Config, db: Db, h: nat, w: V7Work) {
    || cfg.v7Upgrade == 0 || h < cfg.v7Upgrade
    || (!w.stateReadFails && (V7GoesWell(w) || (db.v7State.Some? && db.v7State.value.completed)))
  }

  /** An attempt is counted as indexed exactly when both snapshots get by, the block goes well and the process is
      not killed; the block has then left its content on top of what the snapshots in front of it left. It is
      counted as failed exactly when one of the three goes wrong before the process is killed. */
  lemma AttemptAtBlock(cfg: Config, d: Durable, h: nat, t: Tick)
    requires t.Ready? && t.block.late == []
    ensures var afterDao := EnsureDao(cfg, d, h, t.dao).durable.db;
            var dao, v7 := DaoGetsBy(cfg, d.db, h, t.dao), V7GetsBy(cfg, afterDao, h, t.v7);
            var block := BlockGoesWell(cfg, h, t.block);
            var r := TryBlock(cfg, d, h, t);
            && (r.verdict == Indexed <==> dao && v7 && block && t.crash == NoCrash)
            && (r.verdict == Failed <==>
                  || (!dao && t.crash != BeforeDao)
                  || (dao && !v7 && t.crash != BeforeDao && t.crash != AfterDao)
                  || (dao && v7 && !block && (t.crash == NoCrash || t.crash == AfterBlock)))
            && (r.verdict == Indexed ==> BlockLeaves(cfg, h, BeforeBlock(cfg, d, h, t).db, t.block, r.durable.db))
  {
    hide Try, DaoGoesWell, V7GoesWell, BlockGoesWell, BlockLeaves, V7Leaves;
    DaoTried(cfg, d, h, t.dao);
    V7Tried(cfg, EnsureDao(cfg, d, h, t.dao).durable, h, t.v7);
    BlockTried(cfg, BeforeBlock(cfg, d, h, t), h, t.block);
  }

  // -------------------------------------------------------------------------
  // Every run
  // -------------------------------------------------------------------------

  function DaoLogOf(cfg: Config, c: Commit): seq<DaoWrite> {
    match c
    case DaoCommit(h, w) => seq(|w.ops|, _ => DaoWrite(h, BySnapshot))
    case V7Commit(_, _) => []
    case BlockCommit(h, w) => DaoEntries(cfg, h, Handlers(w))
  }

  // What the committed transactions are to have written to DAO tables, in order.
  function DaoLog(cfg: Config, history: seq<Commit>): seq<DaoWrite> {
    if history == [] then [] else DaoLog(cfg, history[..|history| - 1]) + DaoLogOf(cfg, history[|history| - 1])
  }

  lemma CommitLogs(cfg: Config, db: Db, c: Commit)
    requires Clean(OpsOf(cfg, c))
    ensures ExecOps(db, OpsOf(cfg, c)).daoWrites == db.daoWrites + DaoLogOf(cfg, c)
  {
    hide ExecOps, Clean, BlockOps, DaoOps, V7Ops, EmitAll, DaoEntries, DaoRowsGoWell;
    match c {
      case DaoCommit(h, w) =>
        DaoCleans(h, w);
        DaoOpsDo(db, h, w);
      case V7Commit(_, w) =>
        V7OpsDo(cfg, db, w);
        assert db.daoWrites + [] == db.daoWrites;
      case BlockCommit(h, w) =>
        BlockOpsDo(cfg, h, db, w);
        HandlersDo(cfg, h, db, Handlers(w));
    }
  }

  lemma {:induction false} ReplayLogs(cfg: Config, history: seq<Commit>)
    requires AllClean(cfg, history)
    ensures Replay(cfg, history).daoWrites == DaoLog(cfg, history)
  {
    hide ExecOps, OpsOf, Clean, DaoLogOf;
    if history != [] {
      var init, last := history[..|history| - 1], history[|history| - 1];
      ReplayLogs(cfg, init);
      CommitLogs(cfg, Replay(cfg, init), last);
    }
  }

  /** In every run the writes to DAO tables are those of the committed transactions, in order and none twice:
      all rows of the snapshot, and one for each DAO statement of a block from the cutoff on. */
  lemma RunLogs(cfg: Config, steps: seq<Step>)
    requires NoStrays(steps)
    ensures var d := Run(cfg, Fresh, steps).durable; d.db.daoWrites == DaoLog(cfg, d.history)
  {
    hide Run, Replay, AllClean, DaoLog;
    ExactlyOnce(cfg, steps);
    CommittedMeansSucceeded(cfg, steps);
    ReplayLogs(cfg, Run(cfg, Fresh, steps).durable.history);
  }
}
