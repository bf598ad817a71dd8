/** The block loop, its retries and restarts, and the two one-shot snapshots in front of it:
    src/sync/sync_blocks.ts, src/sync/daodao_snapshot.ts, src/sync/v7_snapshot.ts. */
module BlockLoop {
  import opened Wrappers
  import opened Transactions

  const V7_LEGACY_POOL_ID := "zero"

  // Network constants; 0 switches the snapshot off.
  datatype Config = Config(daoCutoff: nat, v7Upgrade: nat)

  // -------------------------------------------------------------------------
  // What the three kinds of transaction do
  // -------------------------------------------------------------------------

  // One statement of an event or transaction handler, in the order they reach the client.
  datatype HandlerOp =
    | DaoStatement(fails: bool, swallowed: bool)
    | StakeTxStatement(poolId: string, fails: bool)
    | OtherPut(key: string, value: string, fails: bool, swallowed: bool)
    | OtherRemove(keys: set<string>, fails: bool, swallowed: bool)
    | HandlerRaise

  predicate IsDaodaoIndexable(cfg: Config, height: nat) {
    cfg.daoCutoff == 0 || height >= cfg.daoCutoff
  }

  // DAO handlers return at once below the cutoff.
  function Emit(cfg: Config, height: nat, op: HandlerOp): seq<Op> {
    match op
    case DaoStatement(fails, swallowed) =>
      if IsDaodaoIndexable(cfg, height) then [Sql(LogDaoWrite(DaoWrite(height, ByEvent)), fails, swallowed)] else []
    case StakeTxStatement(poolId, fails) => [Sql(InsertStakeTx(StakeTx(height, poolId)), fails, false)]
    case OtherPut(key, value, fails, swallowed) => [Sql(Put(key, value), fails, swallowed)]
    case OtherRemove(keys, fails, swallowed) => [Sql(Remove(keys), fails, swallowed)]
    case HandlerRaise => [Raise]
  }

  function EmitAll(cfg: Config, height: nat, ops: seq<HandlerOp>): seq<Op> {
    if ops == [] then [] else EmitAll(cfg, height, ops[..|ops| - 1]) + Emit(cfg, height, ops[|ops| - 1])
  }

  // Handlers run concurrently with the chain-height update, so it may land anywhere among their
  // statements; the expiry sweep comes last.
  datatype BlockWork = BlockWork(
    before: seq<HandlerOp>, heightFails: bool, after: seq<HandlerOp>,
    expired: set<string>, sweepFails: bool,
    connectFails: bool, beginFails: bool, commitFails: bool, late: seq<Write>)

  function BlockOps(cfg: Config, height: nat, w: BlockWork): seq<Op> {
    EmitAll(cfg, height, w.before) + [Sql(SetHeight(height), w.heightFails, false)]
    + EmitAll(cfg, height, w.after) + [Sql(Remove(w.expired), w.sweepFails, false)]
  }

  // One statement of a snapshot pass.
  datatype SnapshotOp = SnapshotRow(fails: bool, swallowed: bool) | SnapshotRaise

  function EmitDao(height: nat, ops: seq<SnapshotOp>): seq<Op> {
    seq(|ops|, i requires 0 <= i < |ops| =>
      match ops[i]
      case SnapshotRow(fails, swallowed) => Sql(LogDaoWrite(DaoWrite(height, BySnapshot)), fails, swallowed)
      case SnapshotRaise => Raise)
  }

  datatype DaoWork = DaoWork(
    stateReadFails: bool, startFails: bool, ops: seq<SnapshotOp>, finishFails: bool,
    connectFails: bool, beginFails: bool, commitFails: bool)

  function DaoOps(height: nat, w: DaoWork): seq<Op> {
    [Sql(StartDao(height), w.startFails, false)] + EmitDao(height, w.ops) + [Sql(FinishDao, w.finishFails, false)]
  }

  // The v7 snapshot rewrites rows of other tables around the one statement that relinks pool ids.
  datatype V7Op = V7Row(key: string, value: string, fails: bool, swallowed: bool) | V7Raise

  function EmitV7(ops: seq<V7Op>): seq<Op> {
    seq(|ops|, i requires 0 <= i < |ops| =>
      match ops[i]
      case V7Row(key, value, fails, swallowed) => Sql(Put(key, value), fails, swallowed)
      case V7Raise => Raise)
  }

  datatype V7Work = V7Work(
    stateReadFails: bool, startFails: bool, before: seq<V7Op>, relinkFails: bool, after: seq<V7Op>, finishFails: bool,
    connectFails: bool, beginFails: bool, commitFails: bool)

  function V7Ops(cfg: Config, w: V7Work): seq<Op> {
    [Sql(StartV7(cfg.v7Upgrade), w.startFails, false)] + EmitV7(w.before)
    + [Sql(Relink(V7_LEGACY_POOL_ID, cfg.v7Upgrade), w.relinkFails, false)] + EmitV7(w.after)
    + [Sql(FinishV7, w.finishFails, false)]
  }

  // -------------------------------------------------------------------------
  // What has been committed so far, and by which transactions
  // -------------------------------------------------------------------------

  datatype Commit =
    | DaoCommit(height: nat, daoWork: DaoWork)
    | V7Commit(height: nat, v7Work: V7Work)
    | BlockCommit(height: nat, blockWork: BlockWork)

  function OpsOf(cfg: Config, c: Commit): seq<Op> {
    match c
    case DaoCommit(h, w) => DaoOps(h, w)
    case V7Commit(h, w) => V7Ops(cfg, w)
    case BlockCommit(h, w) => BlockOps(cfg, h, w)
  }

  function AttemptOf(cfg: Config, c: Commit): Attempt {
    match c
    case DaoCommit(h, w) => Attempt(w.connectFails, w.beginFails, DaoOps(h, w), w.commitFails, [])
    case V7Commit(h, w) => Attempt(w.connectFails, w.beginFails, V7Ops(cfg, w), w.commitFails, [])
    case BlockCommit(h, w) => Attempt(w.connectFails, w.beginFails, BlockOps(cfg, h, w), w.commitFails, w.late)
  }

  datatype Durable = Durable(db: Db, history: seq<Commit>)

  datatype Tried = Tried(durable: Durable, ok: bool)

  function Try(cfg: Config, d: Durable, c: Commit): Tried {
    var r := Transact(d.db, AttemptOf(cfg, c));
    Tried(Durable(r.db, if r.committed then d.history + [c] else d.history), r.resolved)
  }

  predicate Completed(state: Option<SnapshotState>) {
    state.Some? && state.value.completed
  }

  function EnsureDao(cfg: Config, d: Durable, height: nat, w: DaoWork): Tried {
    if cfg.daoCutoff == 0 || height < cfg.daoCutoff then Tried(d, true)
    else if w.stateReadFails then Tried(d, false)
    else if Completed(d.db.daoState) then Tried(d, true)
    else Try(cfg, d, DaoCommit(height, w))
  }

  function EnsureV7(cfg: Config, d: Durable, height: nat, w: V7Work): Tried {
    if cfg.v7Upgrade == 0 || height < cfg.v7Upgrade then Tried(d, true)
    else if w.stateReadFails then Tried(d, false)
    else if Completed(d.db.v7State) then Tried(d, true)
    else Try(cfg, d, V7Commit(height, w))
  }

  // Where the process is killed, if it is. A crash inside a transaction leaves what the crash before it leaves.
  datatype CrashPoint = NoCrash | BeforeDao | AfterDao | AfterV7 | AfterBlock

  datatype Tick =
    | FetchFails
    | NotYet
    | Ready(dao: DaoWork, v7: V7Work, block: BlockWork, crash: CrashPoint)

  datatype Verdict = Indexed | Failed | Crashed

  datatype BlockTry = BlockTry(durable: Durable, verdict: Verdict)

  function TryBlock(cfg: Config, d: Durable, height: nat, t: Tick): BlockTry
    requires t.Ready?
  {
    if t.crash == BeforeDao then BlockTry(d, Crashed) else
    var dao := EnsureDao(cfg, d, height, t.dao);
    if !dao.ok then BlockTry(dao.durable, Failed)
    else if t.crash == AfterDao then BlockTry(dao.durable, Crashed) else
    var v7 := EnsureV7(cfg, dao.durable, height, t.v7);
    if !v7.ok then BlockTry(v7.durable, Failed)
    else if t.crash == AfterV7 then BlockTry(v7.durable, Crashed) else
    var block := Try(cfg, v7.durable, BlockCommit(height, t.block));
    if !block.ok then BlockTry(block.durable, Failed)
    else if t.crash == AfterBlock then BlockTry(block.durable, Crashed)
    else BlockTry(block.durable, Indexed)
  }

  // -------------------------------------------------------------------------
  // The process and its runs
  // -------------------------------------------------------------------------

  datatype Process = Down | Up(currentBlock: nat, count: nat, errorCount: nat)

  // `idle` counts the loop iterations since the process started or last indexed a block.
  datatype System = System(durable: Durable, process: Process, idle: nat)

  // A stored height of 1 is also what a fresh database holds.
  function StartBlock(db: Db): nat {
    var stored := if db.height == 0 then 1 else db.height;
    if stored != 1 then stored + 1 else stored
  }

  function OnError(s: System, d: Durable): System
    requires s.process.Up?
  {
    var errors := s.process.errorCount + 1;
    System(d, if errors > 3 then Down else Up(s.process.currentBlock, 0, errors), s.idle + 1)
  }

  function Iterate(cfg: Config, s: System, t: Tick): System
    requires s.process.Up?
  {
    var p := s.process;
    match t
    case FetchFails => OnError(s, s.durable)
    case NotYet =>
      if p.count + 1 > 25 then OnError(s, s.durable)
      else System(s.durable, p.(count := p.count + 1), s.idle + 1)
    case Ready(_, _, _, _) => Conclude(s, TryBlock(cfg, s.durable, p.currentBlock, t))
  }

  function Conclude(s: System, r: BlockTry): System
    requires s.process.Up?
  {
    match r.verdict
    case Indexed => System(r.durable, Up(s.process.currentBlock + 1, 0, 0), 0)
    case Failed => OnError(s, r.durable)
    case Crashed => System(r.durable, Down, s.idle + 1)
  }

  lemma OnErrorForgets(s: System, d: Durable)
    requires s.process.Up?
    ensures OnError(s.(durable := d), d) == OnError(s, d)
  {
  }

  // Start is a process start, at any moment; whatever ran before is gone.
  datatype Step = Start | Loop(tick: Tick)

  function Started(s: System): System {
    System(s.durable, Up(StartBlock(s.durable.db), 0, 0), 0)
  }

  function Next(cfg: Config, s: System, step: Step): System {
    match step
    case Start => Started(s)
    case Loop(t) => if s.process.Down? then s else Iterate(cfg, s, t)
  }

  function Run(cfg: Config, s: System, steps: seq<Step>): System {
    if steps == [] then s else Next(cfg, Run(cfg, s, steps[..|steps| - 1]), steps[|steps| - 1])
  }

  // syncChain has stored height 1.
  const FreshDb := Db(1, map[], None, [], None, [])

  const Fresh := System(Durable(FreshDb, []), Down, 0)

  // Once a branch of a block's handlers has failed, its siblings issue no more statements.
  predicate NoStrays(steps: seq<Step>) {
    forall i :: 0 <= i < |steps| && steps[i].Loop? && steps[i].tick.Ready? ==> steps[i].tick.block.late == []
  }

  // -------------------------------------------------------------------------
  // The process, updated in place
  // -------------------------------------------------------------------------

  class BlockSync {
    const cfg: Config
    const client: Client
    var currentBlock: nat
    var count: nat
    var errorCount: nat
    var syncing: bool
    ghost var history: seq<Commit>
    ghost var idle: nat

    constructor (cfg: Config, client: Client)
      requires client.Ready()
      ensures Valid() && this.cfg == cfg && this.client == client && history == [] && !syncing
    {
      this.cfg, this.client := cfg, client;
      currentBlock, count, errorCount, syncing, history, idle := 1, 0, 0, false, [], 0;
    }

    ghost predicate Valid()
      reads this, client
    {
      client.Ready()
    }

    ghost function Durably(): Durable
      reads this, client
    {
      Durable(client.committed, history)
    }

    ghost function Now(): System
      reads this, client
    {
      System(Durably(), if syncing then Up(currentBlock, count, errorCount) else Down, idle)
    }

    method InTransaction(c: Commit) returns (ok: bool)
      requires Valid()
      modifies client, this`history
      ensures Valid() && Tried(Durably(), ok) == Try(cfg, old(Durably()), c)
    {
      ghost var before := client.committed;
      ok := client.WithTransaction(AttemptOf(cfg, c));
      if Transact(before, AttemptOf(cfg, c)).committed {
        history := history + [c];
      }
    }

    method EnsureDaodaoSnapshot(height: nat, w: DaoWork) returns (ok: bool)
      requires Valid()
      modifies client, this`history
      ensures Valid() && Tried(Durably(), ok) == EnsureDao(cfg, old(Durably()), height, w)
    {
      if cfg.daoCutoff == 0 { return true; }
      if height < cfg.daoCutoff { return true; }
      if w.stateReadFails { return false; }
      if client.committed.daoState.Some? && client.committed.daoState.value.completed { return true; }
      ok := InTransaction(DaoCommit(height, w));
    }

    method EnsureV7Snapshot(height: nat, w: V7Work) returns (ok: bool)
      requires Valid()
      modifies client, this`history
      ensures Valid() && Tried(Durably(), ok) == EnsureV7(cfg, old(Durably()), height, w)
    {
      if cfg.v7Upgrade == 0 { return true; }
      if height < cfg.v7Upgrade { return true; }
      if w.stateReadFails { return false; }
      if client.committed.v7State.Some? && client.committed.v7State.value.completed { return true; }
      ok := InTransaction(V7Commit(height, w));
    }

    method IndexBlock(t: Tick) returns (verdict: Verdict)
      requires Valid() && t.Ready?
      modifies client, this`history
      ensures Valid() && BlockTry(Durably(), verdict) == TryBlock(cfg, old(Durably()), currentBlock, t)
    {
      if t.crash == BeforeDao { return Crashed; }
      var ok := EnsureDaodaoSnapshot(currentBlock, t.dao);
      if !ok { return Failed; }
      if t.crash == AfterDao { return Crashed; }
      ok := EnsureV7Snapshot(currentBlock, t.v7);
      if !ok { return Failed; }
      if t.crash == AfterV7 { return Crashed; }
      ok := InTransaction(BlockCommit(currentBlock, t.block));
      if !ok { return Failed; }
      return if t.crash == AfterBlock then Crashed else Indexed;
    }

    method Fail()
      requires Valid() && syncing
      modifies this
      ensures Valid() && history == old(history) && Now() == OnError(old(Now()), Durably())
    {
      count := 0;
      errorCount := errorCount + 1;
      idle := idle + 1;
      if errorCount > 3 {
        syncing := false;
      }
    }

    method Iteration(t: Tick)
      requires Valid() && syncing
      modifies this, client
      ensures Valid() && Now() == Iterate(cfg, old(Now()), t)
    {
      hide OnError, TryBlock, client.Ready;
      match t {
        case FetchFails =>
          Fail();
        case NotYet =>
          if count + 1 > 25 {
            Fail();
          } else {
            count := count + 1;
            idle := idle + 1;
          }
        case Ready(_, _, _, _) =>
          var verdict := IndexBlock(t);
          match verdict {
            case Indexed =>
              currentBlock := currentBlock + 1;
              errorCount, count, idle := 0, 0, 0;
            case Failed =>
              OnErrorForgets(old(Now()), Durably());
              Fail();
            case Crashed =>
              syncing := false;
              idle := idle + 1;
          }
      }
    }

    // One life of the process. `ticks` is what it meets, one entry an iteration, up to where we stop looking.
    method StartSync(ticks: seq<Tick>)
      requires Valid()
      modifies this, client
      ensures Valid()
      ensures Now() == Run(cfg, old(Now()), [Start] + Loops(ticks))
    {
      hide Run, Iterate, Loops, client.Ready;
      syncing := true;
      currentBlock := if client.committed.height == 0 then 1 else client.committed.height;
      if currentBlock != 1 {
        currentBlock := currentBlock + 1;
      }
      count, errorCount, idle := 0, 0, 0;
      ghost var start := old(Now());
      var i := 0;
      RunStart(cfg, start, ticks);
      while syncing && i < |ticks|
        invariant Valid() && i <= |ticks|
        invariant Now() == Run(cfg, start, [Start] + Loops(ticks[..i]))
      {
        Iteration(ticks[i]);
        RunLoop(cfg, start, ticks, i);
        i := i + 1;
      }
      DownStays(cfg, start, ticks, i);
    }
  }

  function Loops(ticks: seq<Tick>): seq<Step> {
    seq(|ticks|, i requires 0 <= i < |ticks| => Loop(ticks[i]))
  }

  lemma RunStart(cfg: Config, s: System, ticks: seq<Tick>)
    ensures Run(cfg, s, [Start] + Loops(ticks[..0])) == Started(s)
  {
    assert Loops(ticks[..0]) == [] && [Start] + [] == [Start] && [Start][..0] == [];
  }

  lemma RunLoop(cfg: Config, s: System, ticks: seq<Tick>, i: nat)
    requires i < |ticks|
    ensures Run(cfg, s, [Start] + Loops(ticks[..i + 1])) ==
            Next(cfg, Run(cfg, s, [Start] + Loops(ticks[..i])), Loop(ticks[i]))
  {
    var steps := [Start] + Loops(ticks[..i + 1]);
    assert steps[..|steps| - 1] == [Start] + Loops(ticks[..i]);
  }

  lemma {:induction false} DownStays(cfg: Config, s: System, ticks: seq<Tick>, i: nat)
    requires i <= |ticks|
    requires i < |ticks| ==> Run(cfg, s, [Start] + Loops(ticks[..i])).process.Down?
    ensures Run(cfg, s, [Start] + Loops(ticks[..i])) == Run(cfg, s, [Start] + Loops(ticks))
    decreases |ticks| - i
  {
    assert ticks[..|ticks|] == ticks;
    if i < |ticks| {
      RunLoop(cfg, s, ticks, i);
      DownStays(cfg, s, ticks, i + 1);
    }
  }
}
