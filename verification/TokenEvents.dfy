/** Token-contract events: one event, many messages, written to the ledger in order until a mint
    defers the rest (src/sync_handlers/event_data_sync_wasm.ts). */
module TokenEvents {
  import opened Wrappers
  import opened TokenLedger
  import opened WasmAttributes

  // BigInt(text): either an integer or a SyntaxError.
  datatype Parsed = Number(value: int) | NotANumber

  type Parser = string -> Parsed

  function FromOf(m: Message): string {
    GetWasmAttr(m, "from")
  }

  function ToOf(m: Message): string {
    GetWasmAttr(m, "to")
  }

  // A message that moves tokens: some side is named, and it is not a transfer to self.
  predicate IsMovement(m: Message) {
    (FromOf(m) != "" || ToOf(m) != "") && FromOf(m) != ToOf(m)
  }

  predicate IsMint(m: Message) {
    IsMovement(m) && FromOf(m) == ""
  }

  predicate HasAmount(m: Message, parse: Parser) {
    parse(GetWasmAttr(m, "amount")).Number?
  }

  function TransactionOf(m: Message, parse: Parser): TokenTransaction
    requires HasAmount(m, parse)
  {
    TokenTransaction(FromOf(m), ToOf(m), parse(GetWasmAttr(m, "amount")).value, GetWasmAttr(m, "token_id"))
  }

  // -------------------------------------------------------------------------
  // A message read off its attributes alone
  // -------------------------------------------------------------------------

  // The first attribute with the key has this value, the empty one if there is none.
  ghost predicate Says(m: Message, key: string, value: string) {
    || (exists i :: FirstWith(m, key, i) && m[i].value == value)
    || (value == "" && forall i :: 0 <= i < |m| ==> m[i].key != key)
  }

  ghost predicate Reads(m: Message, from: string, to: string, amount: string, tokenId: string) {
    Says(m, "from", from) && Says(m, "to", to) && Says(m, "amount", amount) && Says(m, "token_id", tokenId)
  }

  // What is to be recorded of such a message, and how the event ends with it if it does.
  predicate Recorded(from: string, to: string, amount: Parsed, tokenId: string,
                     rows: seq<TokenTransaction>, ending: Option<Ending>)
  {
    if from == to then rows == [] && ending == None
    else
      match amount
      case NotANumber => rows == [] && ending == Some(Failed)
      case Number(n) =>
        if from == "" then rows == [] && ending == Some(Deferred(TokenTransaction("", to, n, tokenId)))
        else rows == [TokenTransaction(from, to, n, tokenId)] && ending == None
  }

  lemma {:induction false} SaysOne(m: Message, key: string, value: string)
    ensures Says(m, key, value) <==> value == GetWasmAttr(m, key)
  {
    if forall i :: 0 <= i < |m| ==> m[i].key != key {
      assert GetWasmAttr(m, key) == "";
    } else {
      var i :| 0 <= i < |m| && m[i].key == key;
      FirstOne(m, key, i);
    }
  }

  lemma {:induction false} FirstOne(m: Message, key: string, i: nat)
    requires i < |m| && m[i].key == key
    ensures exists j :: FirstWith(m, key, j)
  {
    if j :| 0 <= j < i && m[j].key == key {
      FirstOne(m, key, j);
    } else {
      assert FirstWith(m, key, i);
    }
  }

  /** One message against its attributes: who pays, who is paid, how much of which token; nothing for a
      transfer to self or a message naming neither side, an error where the amount is no number. */
  lemma MessageIsRecorded(m: Message, from: string, to: string, amount: string, tokenId: string, parse: Parser)
    requires Reads(m, from, to, amount, tokenId)
    ensures var (rows, ending) := MessageStep(m, parse); Recorded(from, to, parse(amount), tokenId, rows, ending)
  {
    SaysOne(m, "from", from);
    SaysOne(m, "to", to);
    SaysOne(m, "amount", amount);
    SaysOne(m, "token_id", tokenId);
    hide Says, GetWasmAttr;
  }

  function MintIn(ending: Option<Ending>): seq<TokenTransaction> {
    if ending.Some? && ending.value.Deferred? then [ending.value.transaction] else []
  }

  // What one account gains, and what it is credited as minted and retired.
  function Gain(from: string, to: string, amount: Parsed, tokenId: string, k: Key): Balance {
    var moved := if from != to && amount.Number? then amount.value else 0;
    var credit := if k == Key(to, tokenId) then moved else 0;
    var debit := if k == Key(from, tokenId) then moved else 0;
    Balance(credit - debit, if from == "" then credit else 0, if to == "" then debit else 0)
  }

  /** So, once a mint has been run, the receiver has gained the amount and the sender lost it; only what has no
      sender is minted and only what has no receiver retired, and no other balance moves. */
  lemma MessageMovesBalances(ledger: seq<TokenTransaction>, m: Message, from: string, to: string, amount: string,
                             tokenId: string, parse: Parser, k: Key)
    requires Reads(m, from, to, amount, tokenId) && k.address != ""
    ensures var (rows, ending) := MessageStep(m, parse);
            RowOrZero(Index(ledger + rows + MintIn(ending)), k) ==
            RowOrZero(Index(ledger), k).Plus(Gain(from, to, parse(amount), tokenId, k))
  {
    MessageIsRecorded(m, from, to, amount, tokenId, parse);
    var (rows, ending) := MessageStep(m, parse);
    hide *;
    RecordedMoves(ledger, from, to, parse(amount), tokenId, rows, ending, k);
  }

  lemma RecordedMoves(ledger: seq<TokenTransaction>, from: string, to: string, amount: Parsed, tokenId: string,
                      rows: seq<TokenTransaction>, ending: Option<Ending>, k: Key)
    requires Recorded(from, to, amount, tokenId, rows, ending) && k.address != ""
    ensures RowOrZero(Index(ledger + rows + MintIn(ending)), k) ==
            RowOrZero(Index(ledger), k).Plus(Gain(from, to, amount, tokenId, k))
  {
    hide RowOrZero, Index;
    if from == to || amount.NotANumber? {
      assert ledger + rows + MintIn(ending) == ledger;
    } else {
      var t := TokenTransaction(from, to, amount.value, tokenId);
      assert rows + MintIn(ending) == [t] && ledger + rows + MintIn(ending) == ledger + [t];
      OneEntryMore(ledger, t, k);
      assert Entry(t, k) == Gain(from, to, amount, tokenId, k);
    }
  }

  lemma OneEntryMore(ledger: seq<TokenTransaction>, t: TokenTransaction, k: Key)
    requires k.address != ""
    ensures RowOrZero(Index(ledger + [t]), k) == RowOrZero(Index(ledger), k).Plus(Entry(t, k))
  {
    IndexIsLedgerFold(ledger, k);
    assert (ledger + [t])[..|ledger|] == ledger;
    PostRow(Index(ledger), t, k);
    hide Post;
  }

  // How the handler leaves the event: done, with a closure for after the next event, or by an error.
  datatype Ending = Finished | Deferred(transaction: TokenTransaction) | Failed

  datatype Handling = Handling(rows: seq<TokenTransaction>, ending: Ending)

  function Process(messages: seq<Message>, parse: Parser): Handling {
    if messages == [] then Handling([], Finished)
    else if !IsMovement(messages[0]) then Process(messages[1..], parse)
    else if !HasAmount(messages[0], parse) then Handling([], Failed)
    else
      var t := TransactionOf(messages[0], parse);
      if t.from == "" then Handling([], Deferred(t))
      else
        var rest := Process(messages[1..], parse);
        Handling([t] + rest.rows, rest.ending)
  }

  function ProcessEvent(attributes: seq<Attribute>, parse: Parser): Handling {
    match Split(attributes)
    case Threw => Handling([], Failed)
    case Messages(messages) => Process(messages, parse)
  }

  method SyncTokenEvent(event: WasmEvent, tables: TokenTables, parse: Parser) returns (ending: Ending)
    requires tables.Valid()
    modifies event, tables
    ensures tables.Valid()
    ensures tables.ledger == old(tables.ledger) + ProcessEvent(old(event.attributes), parse).rows
    ensures ending == ProcessEvent(old(event.attributes), parse).ending
  {
    var split := event.SplitAttributesByKeyValue();
    match split {
      case Threw =>
        ending := Failed;
      case Messages(messages) =>
        ending := ProcessMessages(messages, tables, parse);
    }
  }

  // One message: the row it writes, and how the event ends here if it does.
  method ProcessMessage(m: Message, tables: TokenTables, parse: Parser)
    returns (ghost rows: seq<TokenTransaction>, ending: Option<Ending>)
    requires tables.Valid()
    modifies tables
    ensures tables.Valid() && tables.ledger == old(tables.ledger) + rows
    ensures (rows, ending) == MessageStep(m, parse)
    ensures forall from, to, amount, tokenId :: Reads(m, from, to, amount, tokenId) ==>
              Recorded(from, to, parse(amount), tokenId, rows, ending)
  {
    forall from, to, amount, tokenId | Reads(m, from, to, amount, tokenId)
      ensures var (rows, ending) := MessageStep(m, parse); Recorded(from, to, parse(amount), tokenId, rows, ending)
    {
      MessageIsRecorded(m, from, to, amount, tokenId, parse);
    }
    hide GetWasmAttr, Index, Reads, Recorded;
    rows, ending := [], None;
    assert tables.ledger + [] == tables.ledger;
    var from, to := GetWasmAttr(m, "from"), GetWasmAttr(m, "to");
    if from == "" && to == "" { return; }
    if from == to { return; }
    var amount := parse(GetWasmAttr(m, "amount"));
    if amount.NotANumber? {
      ending := Some(Failed);
      return;
    }
    var transaction := TokenTransaction(from, to, amount.value, GetWasmAttr(m, "token_id"));
    if from != "" {
      tables.CreateTokenTransaction(transaction);
      rows := [transaction];
    } else {
      ending := Some(Deferred(transaction));
    }
  }

  function MessageStep(m: Message, parse: Parser): (seq<TokenTransaction>, Option<Ending>) {
    if !IsMovement(m) then ([], None)
    else if !HasAmount(m, parse) then ([], Some(Failed))
    else if FromOf(m) == "" then ([], Some(Deferred(TransactionOf(m, parse))))
    else ([TransactionOf(m, parse)], None)
  }

  method ProcessMessages(messages: seq<Message>, tables: TokenTables, parse: Parser) returns (ending: Ending)
    requires tables.Valid()
    modifies tables
    ensures tables.Valid()
    ensures tables.ledger == old(tables.ledger) + Process(messages, parse).rows
    ensures ending == Process(messages, parse).ending
  {
    NothingLeft(messages, parse);
    hide Process, MessageStep, tables.Valid;
    ghost var written: seq<TokenTransaction> := [];
    for i := 0 to |messages|
      invariant tables.Valid() && tables.ledger == old(tables.ledger) + written
      invariant Process(messages, parse) == Prefixed(written, Process(messages[i..], parse))
    {
      var rows, end := ProcessMessage(messages[i], tables, parse);
      StepOnward(messages, i, written, parse);
      Appended(old(tables.ledger), written, rows);
      written := written + rows;
      if end.Some? {
        return end.value;
      }
    }
    Appended(old(tables.ledger), written, []);
    assert written + [] == written;
    return Finished;
  }

  function Prefixed(rows: seq<TokenTransaction>, h: Handling): Handling {
    Handling(rows + h.rows, h.ending)
  }

  lemma ProcessUnfolds(messages: seq<Message>, i: nat, parse: Parser)
    requires i < |messages|
    ensures var (rows, ending) := MessageStep(messages[i], parse);
            Process(messages[i..], parse) == if ending.Some? then Handling(rows, ending.value)
                                             else Prefixed(rows, Process(messages[i + 1..], parse))
  {
    assert messages[i..][0] == messages[i] && messages[i..][1..] == messages[i + 1..];
    hide GetWasmAttr;
    var rest := Process(messages[i + 1..], parse);
    assert [] + rest.rows == rest.rows;
  }

  // The same with what was written before.
  lemma StepOnward(messages: seq<Message>, i: nat, written: seq<TokenTransaction>, parse: Parser)
    requires i < |messages|
    ensures var (rows, ending) := MessageStep(messages[i], parse);
            Prefixed(written, Process(messages[i..], parse)) ==
            if ending.Some? then Handling(written + rows, ending.value)
            else Prefixed(written + rows, Process(messages[i + 1..], parse))
  {
    hide MessageStep, Process;
    ProcessUnfolds(messages, i, parse);
    PrefixedTwice(written, MessageStep(messages[i], parse).0, Process(messages[i + 1..], parse));
  }

  lemma PrefixedTwice(written: seq<TokenTransaction>, rows: seq<TokenTransaction>, h: Handling)
    ensures Prefixed(written, Prefixed(rows, h)) == Prefixed(written + rows, h)
  {
    assert written + (rows + h.rows) == (written + rows) + h.rows;
  }

  lemma Appended(ledger: seq<TokenTransaction>, written: seq<TokenTransaction>, rows: seq<TokenTransaction>)
    ensures (ledger + written) + rows == ledger + (written + rows)
  {
  }

  lemma NothingLeft(messages: seq<Message>, parse: Parser)
    ensures messages[0..] == messages && messages[|messages|..] == []
    ensures Process([], parse) == Handling([], Finished)
    ensures Prefixed([], Process(messages, parse)) == Process(messages, parse)
  {
    hide IsMovement, HasAmount, TransactionOf;
  }

  // -------------------------------------------------------------------------
  // What reaches the ledger
  // -------------------------------------------------------------------------

  // The movements among the messages, in order.
  function Movements(messages: seq<Message>, parse: Parser): seq<TokenTransaction>
    requires forall m :: m in messages && IsMovement(m) ==> HasAmount(m, parse)
  {
    if messages == [] then [] else
      var last := messages[|messages| - 1];
      assert last in messages;
      Movements(messages[..|messages| - 1], parse) + MovementOf(last, parse)
  }

  function MovementOf(m: Message, parse: Parser): seq<TokenTransaction>
    requires IsMovement(m) ==> HasAmount(m, parse)
  {
    if IsMovement(m) then [TransactionOf(m, parse)] else []
  }

  lemma NoMovements(parse: Parser)
    ensures Movements([], parse) == []
  {
  }

  lemma MovementsNext(messages: seq<Message>, m: Message, parse: Parser)
    requires forall x :: x in messages + [m] && IsMovement(x) ==> HasAmount(x, parse)
    ensures m in messages + [m] && forall x :: x in messages ==> x in messages + [m]
    ensures Movements(messages + [m], parse) == Movements(messages, parse) + MovementOf(m, parse)
  {
    hide IsMovement, HasAmount, TransactionOf, MovementOf;
    var all := messages + [m];
    assert all[..|all| - 1] == messages && all[|all| - 1] == m;
  }

  lemma {:induction false} MovementsFirst(messages: seq<Message>, parse: Parser)
    requires messages != []
    requires forall m :: m in messages && IsMovement(m) ==> HasAmount(m, parse)
    ensures Movements(messages, parse) == MovementOf(messages[0], parse) + Movements(messages[1..], parse)
  {
    hide IsMovement, HasAmount, TransactionOf, MovementOf, Movements;
    NoMovements(parse);
    var n := |messages|;
    if n == 1 {
      assert messages == [] + [messages[0]] && messages[1..] == [];
      MovementsNext([], messages[0], parse);
    } else {
      var init, rest, last := messages[..n - 1], messages[1..], messages[n - 1];
      assert messages == init + [last] && rest == init[1..] + [last];
      MovementsNext(init, last, parse);
      MovementsNext(init[1..], last, parse);
      MovementsFirst(init, parse);
    }
  }

  /** The rows written are exactly the movements before the first mint, in order; without a mint that
      is every movement, and a mint silences whatever its event carries behind it. */
  lemma {:induction false} RowsAreMovements(messages: seq<Message>, parse: Parser, stop: nat)
    requires stop <= |messages|
    requires forall m :: m in messages[..stop] ==> !IsMint(m) && (IsMovement(m) ==> HasAmount(m, parse))
    requires stop < |messages| ==> IsMint(messages[stop]) && HasAmount(messages[stop], parse)
    ensures Process(messages, parse) ==
            Handling(Movements(messages[..stop], parse),
                     if stop == |messages| then Finished else Deferred(TransactionOf(messages[stop], parse)))
  {
    hide Process, Movements, MovementOf, TransactionOf, HasAmount, IsMovement, IsMint;
    if stop == 0 {
      NoMovements(parse);
      NothingLeft(messages, parse);
      if messages != [] {
        ProcessFirst(messages, parse);
      }
    } else {
      var rest := messages[1..];
      FirstOnes(messages, stop);
      assert messages[..stop][0] == messages[0] && rest[..stop - 1] == messages[..stop][1..];
      RowsAreMovements(rest, parse, stop - 1);
      MovementsFirst(messages[..stop], parse);
      ProcessFirst(messages, parse);
      assert stop < |messages| ==> rest[stop - 1] == messages[stop];
    }
  }

  // Message i has no readable amount, and no mint or failure comes before it.
  ghost predicate FailsAt(messages: seq<Message>, parse: Parser, i: int) {
    && 0 <= i < |messages| && IsMovement(messages[i]) && !HasAmount(messages[i], parse)
    && forall m :: m in messages[..i] ==> !IsMovement(m) || (!IsMint(m) && HasAmount(m, parse))
  }

  lemma {:induction false} FailsWhere(messages: seq<Message>, parse: Parser)
    ensures Process(messages, parse).ending.Failed? <==> exists i :: FailsAt(messages, parse, i)
  {
    hide IsMovement, HasAmount, TransactionOf;
    if messages != [] {
      var rest := messages[1..];
      FailsWhere(rest, parse);
      if !IsMovement(messages[0]) || (!IsMint(messages[0]) && HasAmount(messages[0], parse)) {
        FailsLater(messages, parse);
        MessageGoesOn(messages, parse);
      } else {
        FailsFirst(messages, parse);
      }
    }
  }

  lemma MessageGoesOn(messages: seq<Message>, parse: Parser)
    requires messages != []
    requires !IsMovement(messages[0]) || (!IsMint(messages[0]) && HasAmount(messages[0], parse))
    ensures Process(messages, parse).ending.Failed? <==> Process(messages[1..], parse).ending.Failed?
  {
    hide GetWasmAttr;
  }

  lemma FailsLater(messages: seq<Message>, parse: Parser)
    requires messages != []
    requires !IsMovement(messages[0]) || (!IsMint(messages[0]) && HasAmount(messages[0], parse))
    ensures (exists i :: FailsAt(messages, parse, i)) <==> exists i :: FailsAt(messages[1..], parse, i)
  {
    hide IsMovement, HasAmount, IsMint;
    var rest := messages[1..];
    if i :| FailsAt(messages, parse, i) {
      assert i > 0 && rest[i - 1] == messages[i] && rest[..i - 1] == messages[1..i];
      assert forall m :: m in rest[..i - 1] ==> m in messages[..i];
      assert FailsAt(rest, parse, i - 1);
    }
    if i :| FailsAt(rest, parse, i) {
      assert messages[i + 1] == rest[i] && messages[..i + 1] == [messages[0]] + rest[..i];
      assert FailsAt(messages, parse, i + 1);
    }
  }

  lemma FailsFirst(messages: seq<Message>, parse: Parser)
    requires messages != [] && IsMovement(messages[0]) && (IsMint(messages[0]) || !HasAmount(messages[0], parse))
    ensures Process(messages, parse).ending.Failed? <==> exists i :: FailsAt(messages, parse, i)
  {
    hide HasAmount, GetWasmAttr, TransactionOf;
    if HasAmount(messages[0], parse) {
      ProcessFirst(messages, parse);
      forall i: int
        ensures !FailsAt(messages, parse, i)
      {
        assert 0 < i <= |messages| ==> messages[0] in messages[..i] by {
          assert 0 < i <= |messages| ==> messages[..i][0] == messages[0];
        }
      }
    } else {
      assert FailsAt(messages, parse, 0);
    }
  }

  /** Exactly when does a token event fail: when its attributes cannot be split, or a message before the first
      mint, or that mint, moves an amount that is no number. */
  lemma EventFailsWhere(attributes: seq<Attribute>, parse: Parser)
    ensures ProcessEvent(attributes, parse).ending.Failed? <==>
              var a := if attributes == [] then [] else attributes[1..];
              || ActionsIn(a) == {} || (|a| == 1 && IsAction(a, 0))
              || (Split(attributes).Messages? && exists i :: FailsAt(Split(attributes).messages, parse, i))
  {
    hide ActionsIn, FailsAt, Process;
    SplitOfAnyList(attributes);
    if Split(attributes).Messages? {
      FailsWhere(Split(attributes).messages, parse);
    }
  }

  lemma FirstOnes(messages: seq<Message>, stop: nat)
    requires 0 < stop <= |messages|
    ensures messages[0] in messages[..stop] && forall m :: m in messages[1..][..stop - 1] ==> m in messages[..stop]
  {
    assert messages[0] == messages[..stop][0];
    forall m | m in messages[1..][..stop - 1] ensures m in messages[..stop] {
      var i :| 0 <= i < stop - 1 && m == messages[1..][..stop - 1][i];
      assert m == messages[..stop][i + 1];
    }
  }

  lemma ProcessFirst(messages: seq<Message>, parse: Parser)
    requires messages != [] && (IsMovement(messages[0]) ==> HasAmount(messages[0], parse))
    ensures Process(messages, parse) ==
            if IsMint(messages[0]) then Handling([], Deferred(TransactionOf(messages[0], parse)))
            else Prefixed(MovementOf(messages[0], parse), Process(messages[1..], parse))
  {
    hide GetWasmAttr, HasAmount;
    var rest := Process(messages[1..], parse);
    assert [] + rest.rows == rest.rows;
  }

  /** The two layouts of one batch are handled alike: same rows, same ending. */
  lemma {:induction false} LayoutsAgree(contract: Attribute, messages: seq<Message>, width: nat, parse: Parser)
    requires ShareKeyOrder(messages, width)
    ensures ProcessEvent([contract] + Concat(messages), parse)
            == ProcessEvent([contract] + GroupedLayout(messages, width), parse)
    ensures |messages| >= 2 || (|messages| == 1 && width >= 2) ==>
              ProcessEvent([contract] + Concat(messages), parse) == Process(messages, parse)
  {
    SplitInvertsSequential(contract, messages);
    SplitInvertsGrouped(contract, messages, width);
    if |messages| == 0 {
      EmptyLayout(messages, width);
    } else if width == 1 {
      ConcatOfActions(messages);
    }
  }

  /** So a batch without mints ends in the same ledger and the same balances in either layout. */
  lemma {:induction false} BatchWithoutMints(contract: Attribute, messages: seq<Message>, width: nat, parse: Parser,
                          ledger: seq<TokenTransaction>)
    requires ShareKeyOrder(messages, width)
    requires |messages| >= 2 || (|messages| == 1 && width >= 2)
    requires forall m :: m in messages ==> !IsMint(m) && (IsMovement(m) ==> HasAmount(m, parse))
    ensures var sequential, grouped :=
              ProcessEvent([contract] + Concat(messages), parse),
              ProcessEvent([contract] + GroupedLayout(messages, width), parse);
            && sequential.ending == grouped.ending == Finished
            && ledger + sequential.rows == ledger + grouped.rows == ledger + Movements(messages, parse)
            && Index(ledger + sequential.rows) == Index(ledger + grouped.rows)
  {
    LayoutsAgree(contract, messages, width, parse);
    assert messages[..|messages|] == messages;
    RowsAreMovements(messages, parse, |messages|);
  }

  predicate NoSelfTransfer(rows: seq<TokenTransaction>) {
    forall t :: t in rows ==> t.from != t.to
  }

  lemma {:induction false} ProcessRecordsNoSelfTransfer(messages: seq<Message>, parse: Parser)
    ensures NoSelfTransfer(Process(messages, parse).rows)
    ensures Process(messages, parse).ending.Deferred? ==>
              var t := Process(messages, parse).ending.transaction; t.from == "" && t.to != ""
  {
    if messages != [] {
      ProcessRecordsNoSelfTransfer(messages[1..], parse);
    }
  }

  lemma {:induction false} NoneSelfTransferred(ledger: seq<TokenTransaction>, k: Key)
    requires NoSelfTransfer(ledger)
    ensures SelfTransferred(ledger, k) == 0
  {
    if ledger != [] {
      forall t | t in ledger[..|ledger| - 1] ensures t in ledger {}
      NoneSelfTransferred(ledger[..|ledger| - 1], k);
    }
  }

  /** The handler never records a transfer to self, so on every ledger it builds the indexed balance
      is the amount the whole-ledger query returns. */
  lemma {:induction false} HandledLedgerAgreesWithQuery(
      ledger: seq<TokenTransaction>, attributes: seq<Attribute>, parse: Parser, k: Key)
    requires NoSelfTransfer(ledger) && k.address != ""
    ensures var h := ProcessEvent(attributes, parse);
            var after := ledger + h.rows + if h.ending.Deferred? then [h.ending.transaction] else [];
            NoSelfTransfer(after) && AccountAmount(after, k) == RowOrZero(Index(after), k).amount
  {
    var h := ProcessEvent(attributes, parse);
    var after := ledger + h.rows + if h.ending.Deferred? then [h.ending.transaction] else [];
    if Split(attributes).Messages? {
      ProcessRecordsNoSelfTransfer(Split(attributes).messages, parse);
    }
    NoneSelfTransferred(after, k);
    AccountQueryAgrees(after, k);
  }
}
