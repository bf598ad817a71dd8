/** Statements, transactions and the shared client they are routed through: src/postgres/client.ts.
    A transaction follows PostgreSQL: after one failed statement every later statement fails too, and
    COMMIT then rolls back without reporting an error. */
module Transactions {
  import opened Wrappers

  // -------------------------------------------------------------------------
  // The tables the run-level guarantees speak of; `rows` stands for all the others
  // -------------------------------------------------------------------------

  datatype Origin = BySnapshot | ByEvent

  // One write to a DAO table, be it an insert, an update or a delete: when it was made and by whom.
  datatype DaoWrite = DaoWrite(height: nat, origin: Origin)

  datatype StakeTx = StakeTx(height: nat, poolId: string)

  datatype SnapshotState = SnapshotState(height: nat, completed: bool)

  datatype Db = Db(
    height: nat,
    rows: map<string, string>,
    daoState: Option<SnapshotState>,
    daoWrites: seq<DaoWrite>,
    v7State: Option<SnapshotState>,
    stakeTxs: seq<StakeTx>)

  datatype Write =
    | Put(key: string, value: string)
    | Remove(keys: set<string>)
    | SetHeight(height: nat)
    | StartDao(height: nat)
    | LogDaoWrite(entry: DaoWrite)
    | FinishDao
    | StartV7(height: nat)
    | Relink(poolId: string, before: nat)
    | FinishV7
    | InsertStakeTx(tx: StakeTx)

  function Complete(state: Option<SnapshotState>): Option<SnapshotState> {
    match state
    case None => None
    case Some(s) => Some(s.(completed := true))
  }

  // Rows below the height that have no pool id yet get one, all others are left alone.
  function RelinkOne(tx: StakeTx, poolId: string, before: nat): StakeTx {
    if tx.poolId == "" && tx.height < before then tx.(poolId := poolId) else tx
  }

  function RelinkAll(txs: seq<StakeTx>, poolId: string, before: nat): (relinked: seq<StakeTx>)
    ensures |relinked| == |txs|
    ensures forall i :: 0 <= i < |txs| ==> relinked[i] == RelinkOne(txs[i], poolId, before)
  {
    if txs == [] then []
    else RelinkAll(txs[..|txs| - 1], poolId, before) + [RelinkOne(txs[|txs| - 1], poolId, before)]
  }

  function Exec(db: Db, w: Write): Db {
    match w
    case Put(key, value) => db.(rows := db.rows[key := value])
    case Remove(keys) => db.(rows := db.rows - keys)
    case SetHeight(h) => db.(height := h)
    case StartDao(h) => db.(daoState := Some(SnapshotState(h, false)))
    case LogDaoWrite(entry) => db.(daoWrites := db.daoWrites + [entry])
    case FinishDao => db.(daoState := Complete(db.daoState))
    case StartV7(h) => db.(v7State := Some(SnapshotState(h, false)))
    case Relink(poolId, before) => db.(stakeTxs := RelinkAll(db.stakeTxs, poolId, before))
    case FinishV7 => db.(v7State := Complete(db.v7State))
    case InsertStakeTx(tx) => db.(stakeTxs := db.stakeTxs + [tx])
  }

  function ExecAll(db: Db, ws: seq<Write>): Db {
    if ws == [] then db else Exec(ExecAll(db, ws[..|ws| - 1]), ws[|ws| - 1])
  }

  lemma {:induction false} ExecAllConcat(db: Db, a: seq<Write>, b: seq<Write>)
    ensures ExecAll(db, a + b) == ExecAll(ExecAll(db, a), b)
  {
    if b == [] {
      assert a + b == a;
    } else {
      assert (a + b)[..|a + b| - 1] == a + b[..|b| - 1];
      ExecAllConcat(db, a, b[..|b| - 1]);
    }
  }

  // -------------------------------------------------------------------------
  // One transaction
  // -------------------------------------------------------------------------

  // What the body of a transaction does next. `fails` is the server rejecting the statement, `swallowed`
  // a handler catching the error and carrying on; Raise is any other error leaving the body.
  datatype Op = Sql(write: Write, fails: bool, swallowed: bool) | Raise

  datatype TxState = Idle | Open(view: Db) | Aborted

  // `late` are statements a sibling of the failed branch issues once the shared client has been reset:
  // Promise.all rejects without waiting for it, and the statements then commit by themselves.
  datatype Attempt = Attempt(
    connectFails: bool, beginFails: bool, ops: seq<Op>, commitFails: bool, late: seq<Write>)

  datatype BodyResult = BodyResult(tx: TxState, threw: bool)

  function RunOps(tx: TxState, ops: seq<Op>): BodyResult
    requires !tx.Idle?
    decreases |ops|
  {
    if ops == [] then BodyResult(tx, false)
    else
      match ops[0]
      case Raise => BodyResult(tx, true)
      case Sql(write, fails, swallowed) =>
        if tx.Open? && !fails then RunOps(Open(Exec(tx.view, write)), ops[1..])
        else if swallowed then RunOps(Aborted, ops[1..])
        else BodyResult(Aborted, true)
  }

  // `resolved` is what withTransaction reports to its caller, `committed` what the server did.
  datatype Result = Result(db: Db, resolved: bool, committed: bool)

  function Transact(db: Db, a: Attempt): Result {
    if a.connectFails || a.beginFails then Result(db, false, false)
    else
      var body := RunOps(Open(db), a.ops);
      if body.threw then Result(ExecAll(db, a.late), false, false)
      else if a.commitFails then Result(db, false, false)
      else match body.tx
           case Open(view) => Result(view, true, true)
           case _ => Result(db, true, false)
  }

  predicate Clean(ops: seq<Op>) {
    forall i :: 0 <= i < |ops| ==> ops[i].Sql? && !ops[i].fails
  }

  function Writes(ops: seq<Op>): seq<Write> {
    if ops == [] then []
    else (if ops[0].Sql? then [ops[0].write] else []) + Writes(ops[1..])
  }

  lemma {:induction false} ExecAllFirst(db: Db, w: Write, ws: seq<Write>)
    ensures ExecAll(db, [w] + ws) == ExecAll(Exec(db, w), ws)
  {
    ExecAllConcat(db, [w], ws);
    assert [w][..0] == [];
  }

  lemma {:induction false} OpenBody(db: Db, ops: seq<Op>)
    ensures Clean(ops) ==> RunOps(Open(db), ops) == BodyResult(Open(ExecAll(db, Writes(ops))), false)
    ensures RunOps(Open(db), ops).tx.Open? && !RunOps(Open(db), ops).threw ==> Clean(ops)
    decreases |ops|
  {
    if ops != [] && ops[0].Sql? && !ops[0].fails {
      OpenBody(Exec(db, ops[0].write), ops[1..]);
      ExecAllFirst(db, ops[0].write, Writes(ops[1..]));
      assert Clean(ops) <==> Clean(ops[1..]) by {
        assert forall i :: 1 <= i < |ops| ==> ops[i] == ops[1..][i - 1];
      }
    } else if ops != [] && ops[0].Sql? && ops[0].swallowed {
      AbortedBody(ops[1..]);
    }
  }

  lemma {:induction false} AbortedBody(ops: seq<Op>)
    ensures !RunOps(Aborted, ops).tx.Open?
    ensures RunOps(Aborted, ops).threw <==> exists i :: 0 <= i < |ops| && (ops[i].Raise? || !ops[i].swallowed)
  {
    if ops != [] && ops[0].Sql? && ops[0].swallowed {
      AbortedBody(ops[1..]);
      assert forall i :: 1 <= i < |ops| ==> ops[i] == ops[1..][i - 1];
    }
  }

  predicate Guarded(ops: seq<Op>) {
    ops != [] && ops[|ops| - 1].Sql? && !ops[|ops| - 1].swallowed
  }

  lemma {:induction false} GuardedBody(tx: TxState, ops: seq<Op>)
    requires !tx.Idle? && Guarded(ops)
    ensures RunOps(tx, ops).threw || RunOps(tx, ops).tx.Open?
    decreases |ops|
  {
    if |ops| > 1 && ops[0].Sql? {
      if tx.Open? && !ops[0].fails {
        GuardedBody(Open(Exec(tx.view, ops[0].write)), ops[1..]);
      } else if ops[0].swallowed {
        GuardedBody(Aborted, ops[1..]);
      }
    }
  }

  /** A transaction takes effect whole or not at all, and it takes effect exactly when every statement
      of its body succeeded and nothing else went wrong. A failed one leaves the database as it was,
      but for statements its stray siblings issue afterwards. */
  lemma AllOrNothing(db: Db, a: Attempt)
    ensures Transact(db, a).committed <==> !a.connectFails && !a.beginFails && !a.commitFails && Clean(a.ops)
    ensures Transact(db, a).committed ==> Transact(db, a).db == ExecAll(db, Writes(a.ops))
    ensures !Transact(db, a).committed ==> Transact(db, a).db == db || Transact(db, a).db == ExecAll(db, a.late)
    ensures !Transact(db, a).committed && a.late == [] ==> Transact(db, a).db == db
  {
    OpenBody(db, a.ops);
  }

  /** When the body ends in a statement whose error nobody swallows, success is reported exactly when
      the transaction was committed, however many errors were swallowed on the way. */
  lemma GuardedReportsTruthfully(db: Db, a: Attempt)
    requires Guarded(a.ops)
    ensures Transact(db, a).resolved <==> Transact(db, a).committed
  {
    GuardedBody(Open(db), a.ops);
  }

  /** The guard is needed: if the last statement's error is swallowed, the same body with that one
      statement failing reports success although everything was rolled back. */
  lemma UnguardedHidesRollback(db: Db, a: Attempt)
    requires !a.connectFails && !a.beginFails && !a.commitFails
    requires a.ops != [] && Clean(a.ops) && a.ops[|a.ops| - 1].swallowed
    ensures var last := |a.ops| - 1;
            var r := Transact(db, a.(ops := a.ops[last := a.ops[last].(fails := true)]));
            r.resolved && !r.committed && r.db == db
  {
    var last := |a.ops| - 1;
    FailingLast(db, a.ops[..last], a.ops[last].(fails := true));
    assert a.ops[last := a.ops[last].(fails := true)] == a.ops[..last] + [a.ops[last].(fails := true)];
  }

  lemma {:induction false} FailingLast(db: Db, ops: seq<Op>, last: Op)
    requires Clean(ops) && last.Sql? && last.fails && last.swallowed
    ensures RunOps(Open(db), ops + [last]) == BodyResult(Aborted, false)
    decreases |ops|
  {
    if ops == [] {
      assert ops + [last] == [last];
      assert [last][1..] == [];
    } else {
      FailingLast(Exec(db, ops[0].write), ops[1..], last);
      assert (ops + [last])[1..] == ops[1..] + [last];
    }
  }

  // -------------------------------------------------------------------------
  // The connection, updated in place
  // -------------------------------------------------------------------------

  class Client {
    var committed: Db       // what the server has made durable
    var tx: TxState         // the transaction on the client in use
    var currentPool: bool   // is that client the one dbQuery routes to

    ghost predicate Ready()
      reads this
    {
      tx.Idle? && !currentPool
    }

    constructor (db: Db)
      ensures Ready() && committed == db
    {
      committed, tx, currentPool := db, Idle, false;
    }

    // On the transaction's client while it is set, on any pooled connection otherwise.
    method DbQuery(write: Write, fails: bool) returns (ok: bool)
      requires currentPool ==> !tx.Idle?
      modifies this`committed, this`tx
      ensures currentPool ==> committed == old(committed)
      ensures currentPool ==> ok == (old(tx).Open? && !fails)
      ensures currentPool ==> tx == if ok then Open(Exec(old(tx).view, write)) else Aborted
      ensures !currentPool ==> tx == old(tx) && ok == !fails
      ensures !currentPool ==> committed == if ok then Exec(old(committed), write) else old(committed)
    {
      if currentPool {
        ok := tx.Open? && !fails;
        tx := if ok then Open(Exec(tx.view, write)) else Aborted;
      } else {
        ok := !fails;
        if ok {
          committed := Exec(committed, write);
        }
      }
    }

    method RunBody(ops: seq<Op>) returns (threw: bool)
      requires currentPool && !tx.Idle?
      modifies this`committed, this`tx
      ensures committed == old(committed)
      ensures BodyResult(tx, threw) == RunOps(old(tx), ops)
    {
      assert ops[0..] == ops;
      for i := 0 to |ops|
        invariant !tx.Idle? && committed == old(committed)
        invariant RunOps(old(tx), ops) == RunOps(tx, ops[i..])
      {
        assert ops[i..][0] == ops[i] && ops[i..][1..] == ops[i + 1..];
        match ops[i] {
          case Raise =>
            return true;
          case Sql(write, fails, swallowed) =>
            var ok := DbQuery(write, fails);
            if !ok && !swallowed {
              return true;
            }
        }
      }
      return false;
    }

    method RunLate(late: seq<Write>)
      requires !currentPool
      modifies this`committed, this`tx
      ensures committed == ExecAll(old(committed), late) && tx == old(tx)
    {
      for i := 0 to |late|
        invariant committed == ExecAll(old(committed), late[..i]) && tx == old(tx)
      {
        var _ := DbQuery(late[i], false);
        assert late[..i + 1][..i] == late[..i];
      }
      assert late[..|late|] == late;
    }

    method WithTransaction(a: Attempt) returns (resolved: bool)
      requires Ready()
      modifies this
      ensures Ready()
      ensures committed == Transact(old(committed), a).db && resolved == Transact(old(committed), a).resolved
    {
      if a.connectFails || a.beginFails {
        return false;
      }
      tx := Open(committed);
      currentPool := true;
      var threw := RunBody(a.ops);
      currentPool := false;
      if threw {
        RunLate(a.late);
        tx := Idle;             // ROLLBACK
        return false;
      }
      resolved := !a.commitFails;
      if resolved && tx.Open? {
        committed := tx.view;   // COMMIT; in an aborted transaction it rolls back instead
      }
      tx := Idle;
    }
  }
}
