/** The token ledger ("TokenTransaction") and the balance index ("TokenBalance") kept beside it:
    src/postgres/token.ts. */
module TokenLedger {
  import opened Sums

  // `from` is empty for a mint, `to` is empty for a retire.
  datatype TokenTransaction = TokenTransaction(from: string, to: string, amount: int, tokenId: string)

  datatype Key = Key(address: string, tokenId: string)

  datatype Balance = Balance(amount: int, minted: int, retired: int) {
    function Plus(d: Balance): Balance {
      Balance(amount + d.amount, minted + d.minted, retired + d.retired)
    }
  }

  const ZERO := Balance(0, 0, 0)

  type BalanceTable = map<Key, Balance>

  // -------------------------------------------------------------------------
  // What one append does to the index
  // -------------------------------------------------------------------------

  function RowOrZero(b: BalanceTable, k: Key): Balance {
    if k in b then b[k] else ZERO
  }

  function ApplyDelta(b: BalanceTable, k: Key, d: Balance): BalanceTable {
    var row := RowOrZero(b, k).Plus(d);
    if row == ZERO then b - {k} else b[k := row]
  }

  // A credit with no sender is a mint; a debit with no recipient is a retire.
  function CreditOf(t: TokenTransaction): Balance {
    Balance(t.amount, if t.from == "" then t.amount else 0, 0)
  }

  function DebitOf(t: TokenTransaction): Balance {
    Balance(-t.amount, 0, if t.to == "" then t.amount else 0)
  }

  function ApplyToAccount(b: BalanceTable, address: string, tokenId: string, d: Balance): BalanceTable {
    if address == "" then b else ApplyDelta(b, Key(address, tokenId), d)
  }

  function Post(b: BalanceTable, t: TokenTransaction): BalanceTable {
    ApplyToAccount(ApplyToAccount(b, t.to, t.tokenId, CreditOf(t)), t.from, t.tokenId, DebitOf(t))
  }

  function Index(ledger: seq<TokenTransaction>): BalanceTable {
    if ledger == [] then map[]
    else Post(Index(ledger[..|ledger| - 1]), ledger[|ledger| - 1])
  }

  // -------------------------------------------------------------------------
  // The ledger read directly: the reference the index is compared with
  // -------------------------------------------------------------------------

  function Credits(ledger: seq<TokenTransaction>, k: Key): int {
    if ledger == [] then 0 else
      var t := ledger[|ledger| - 1];
      Credits(ledger[..|ledger| - 1], k) + if t.to == k.address && t.tokenId == k.tokenId then t.amount else 0
  }

  function Debits(ledger: seq<TokenTransaction>, k: Key): int {
    if ledger == [] then 0 else
      var t := ledger[|ledger| - 1];
      Debits(ledger[..|ledger| - 1], k) + if t.from == k.address && t.tokenId == k.tokenId then t.amount else 0
  }

  function MintedTo(ledger: seq<TokenTransaction>, k: Key): int {
    if ledger == [] then 0 else
      var t := ledger[|ledger| - 1];
      MintedTo(ledger[..|ledger| - 1], k)
      + if t.from == "" && t.to == k.address && t.tokenId == k.tokenId then t.amount else 0
  }

  function RetiredBy(ledger: seq<TokenTransaction>, k: Key): int {
    if ledger == [] then 0 else
      var t := ledger[|ledger| - 1];
      RetiredBy(ledger[..|ledger| - 1], k)
      + if t.to == "" && t.from == k.address && t.tokenId == k.tokenId then t.amount else 0
  }

  function LedgerBalance(ledger: seq<TokenTransaction>, k: Key): Balance {
    Balance(Credits(ledger, k) - Debits(ledger, k), MintedTo(ledger, k), RetiredBy(ledger, k))
  }

  // What one ledger entry contributes to one row.
  function Entry(t: TokenTransaction, k: Key): Balance {
    if t.tokenId != k.tokenId then ZERO else
      var credit := if t.to == k.address then t.amount else 0;
      var debit := if t.from == k.address then t.amount else 0;
      Balance(credit - debit, if t.from == "" then credit else 0, if t.to == "" then debit else 0)
  }

  // No zero row is stored, and no row for the empty address.
  predicate CleanRow(b: BalanceTable, k: Key) {
    k in b ==> k.address != "" && b[k] != ZERO
  }

  lemma AccountRow(b: BalanceTable, address: string, tokenId: string, d: Balance, k: Key)
    requires CleanRow(b, k)
    ensures CleanRow(ApplyToAccount(b, address, tokenId, d), k)
    ensures k.address != "" ==>
              RowOrZero(ApplyToAccount(b, address, tokenId, d), k) ==
              RowOrZero(b, k).Plus(if k == Key(address, tokenId) then d else ZERO)
  {
  }

  lemma PostRow(b: BalanceTable, t: TokenTransaction, k: Key)
    requires CleanRow(b, k)
    ensures CleanRow(Post(b, t), k)
    ensures k.address != "" ==> RowOrZero(Post(b, t), k) == RowOrZero(b, k).Plus(Entry(t, k))
  {
    hide ApplyDelta, ApplyToAccount, RowOrZero, CleanRow;
    var credited := ApplyToAccount(b, t.to, t.tokenId, CreditOf(t));
    AccountRow(b, t.to, t.tokenId, CreditOf(t), k);
    AccountRow(credited, t.from, t.tokenId, DebitOf(t), k);
  }

  /** Every row is the fold of the ledger, and a row is stored exactly when that fold is not all zero. */
  lemma {:induction false} IndexIsLedgerFold(ledger: seq<TokenTransaction>, k: Key)
    ensures k in Index(ledger) <==> k.address != "" && LedgerBalance(ledger, k) != ZERO
    ensures k in Index(ledger) ==> Index(ledger)[k] == LedgerBalance(ledger, k)
  {
    if ledger != [] {
      var before, t := ledger[..|ledger| - 1], ledger[|ledger| - 1];
      IndexIsLedgerFold(before, k);
      PostRow(Index(before), t, k);
      hide Post;
      if k.address != "" {
        assert LedgerBalance(ledger, k) == LedgerBalance(before, k).Plus(Entry(t, k));
      }
    }
  }

  // -------------------------------------------------------------------------
  // Conservation, per token
  // -------------------------------------------------------------------------

  datatype Field = Amount | Minted | Retired

  function Get(b: Balance, f: Field): int {
    match f
    case Amount => b.amount
    case Minted => b.minted
    case Retired => b.retired
  }

  function Column(b: BalanceTable, tokenId: string, f: Field): map<Key, int> {
    map k | k in b && k.tokenId == tokenId :: Get(b[k], f)
  }

  ghost function Total(b: BalanceTable, tokenId: string, f: Field): int {
    Sum(Column(b, tokenId, f))
  }

  lemma DeltaTotal(b: BalanceTable, k: Key, d: Balance, tokenId: string, f: Field)
    ensures Total(ApplyDelta(b, k, d), tokenId, f) ==
            Total(b, tokenId, f) + if k.tokenId == tokenId then Get(d, f) else 0
  {
    var row := RowOrZero(b, k).Plus(d);
    var column := Column(b, tokenId, f);
    if k.tokenId != tokenId {
      assert Column(ApplyDelta(b, k, d), tokenId, f) == column;
    } else if row == ZERO {
      assert Column(b - {k}, tokenId, f) == column - {k};
      SumDelete(column, k);
    } else {
      assert Column(b[k := row], tokenId, f) == column[k := Get(row, f)];
      SumUpdate(column, k, Get(row, f));
    }
  }

  // Totals read off the ledger. An entry with both sides empty moves nothing.
  function TotalMinted(ledger: seq<TokenTransaction>, tokenId: string): int {
    if ledger == [] then 0 else
      var t := ledger[|ledger| - 1];
      TotalMinted(ledger[..|ledger| - 1], tokenId)
      + if t.from == "" && t.to != "" && t.tokenId == tokenId then t.amount else 0
  }

  function TotalRetired(ledger: seq<TokenTransaction>, tokenId: string): int {
    if ledger == [] then 0 else
      var t := ledger[|ledger| - 1];
      TotalRetired(ledger[..|ledger| - 1], tokenId)
      + if t.to == "" && t.from != "" && t.tokenId == tokenId then t.amount else 0
  }

  /** In every reachable index, what is held of a token is what was minted less what was retired. */
  lemma {:induction false} Conservation(ledger: seq<TokenTransaction>, tokenId: string)
    ensures Total(Index(ledger), tokenId, Minted) == TotalMinted(ledger, tokenId)
    ensures Total(Index(ledger), tokenId, Retired) == TotalRetired(ledger, tokenId)
    ensures Total(Index(ledger), tokenId, Amount) == TotalMinted(ledger, tokenId) - TotalRetired(ledger, tokenId)
  {
    if ledger == [] {
      forall f: Field ensures Column(map[], tokenId, f) == map[] {}
    } else {
      var before, t := ledger[..|ledger| - 1], ledger[|ledger| - 1];
      Conservation(before, tokenId);
      forall f: Field ensures Total(Post(Index(before), t), tokenId, f) ==
                              Total(Index(before), tokenId, f) + PostedTotal(t, tokenId, f)
      {
        PostTotal(Index(before), t, tokenId, f);
      }
    }
  }

  function PostedTotal(t: TokenTransaction, tokenId: string, f: Field): int {
    if t.tokenId != tokenId then 0 else
      match f
      case Amount => (if t.to == "" then 0 else t.amount) - (if t.from == "" then 0 else t.amount)
      case Minted => if t.from == "" && t.to != "" then t.amount else 0
      case Retired => if t.to == "" && t.from != "" then t.amount else 0
  }

  lemma PostTotal(b: BalanceTable, t: TokenTransaction, tokenId: string, f: Field)
    ensures Total(Post(b, t), tokenId, f) == Total(b, tokenId, f) + PostedTotal(t, tokenId, f)
  {
    hide ApplyDelta, Total;
    DeltaTotal(b, Key(t.to, t.tokenId), CreditOf(t), tokenId, f);
    var credited := ApplyToAccount(b, t.to, t.tokenId, CreditOf(t));
    DeltaTotal(credited, Key(t.from, t.tokenId), DebitOf(t), tokenId, f);
  }

  /** A transfer leaves both totals of every token as they were; no entry with a non-negative amount
      lowers a minted or retired total, nor any address's own minted or retired count. */
  lemma TransfersKeepTotals(ledger: seq<TokenTransaction>, t: TokenTransaction, k: Key)
    ensures t.from != "" && t.to != "" ==>
              && Total(Index(ledger + [t]), k.tokenId, Minted) == Total(Index(ledger), k.tokenId, Minted)
              && Total(Index(ledger + [t]), k.tokenId, Retired) == Total(Index(ledger), k.tokenId, Retired)
              && Total(Index(ledger + [t]), k.tokenId, Amount) == Total(Index(ledger), k.tokenId, Amount)
    ensures t.amount >= 0 ==>
              && Total(Index(ledger + [t]), k.tokenId, Minted) >= Total(Index(ledger), k.tokenId, Minted)
              && Total(Index(ledger + [t]), k.tokenId, Retired) >= Total(Index(ledger), k.tokenId, Retired)
              && RowOrZero(Index(ledger + [t]), k).minted >= RowOrZero(Index(ledger), k).minted
              && RowOrZero(Index(ledger + [t]), k).retired >= RowOrZero(Index(ledger), k).retired
  {
    assert (ledger + [t])[..|ledger|] == ledger;
    forall f: Field ensures Total(Index(ledger + [t]), k.tokenId, f) ==
                            Total(Index(ledger), k.tokenId, f) + PostedTotal(t, k.tokenId, f)
    {
      PostTotal(Index(ledger), t, k.tokenId, f);
    }
    IndexIsLedgerFold(ledger, k);
    IndexIsLedgerFold(ledger + [t], k);
  }

  // -------------------------------------------------------------------------
  // The older whole-ledger query, getAccountTokensSql
  // -------------------------------------------------------------------------

  // Over the rows naming the account on either side: the amount if it is the receiver, its negative if not.
  function AccountAmount(ledger: seq<TokenTransaction>, k: Key): int {
    if ledger == [] then 0 else
      var t := ledger[|ledger| - 1];
      AccountAmount(ledger[..|ledger| - 1], k)
      + if t.tokenId != k.tokenId || (t.from != k.address && t.to != k.address) then 0
        else if t.to == k.address then t.amount else -t.amount
  }

  function SelfTransferred(ledger: seq<TokenTransaction>, k: Key): int {
    if ledger == [] then 0 else
      var t := ledger[|ledger| - 1];
      SelfTransferred(ledger[..|ledger| - 1], k)
      + if t.from == k.address && t.to == k.address && t.tokenId == k.tokenId then t.amount else 0
  }

  /** The index row agrees with the whole-ledger query exactly when the account's recorded
      self-transfers add up to nothing; the event handler records none (see TokenEvents). */
  lemma {:induction false} AccountQueryAgrees(ledger: seq<TokenTransaction>, k: Key)
    requires k.address != ""
    ensures AccountAmount(ledger, k) == RowOrZero(Index(ledger), k).amount + SelfTransferred(ledger, k)
    ensures AccountAmount(ledger, k) == RowOrZero(Index(ledger), k).amount <==> SelfTransferred(ledger, k) == 0
  {
    IndexIsLedgerFold(ledger, k);
    AccountAmountSplit(ledger, k);
  }

  lemma {:induction false} AccountAmountSplit(ledger: seq<TokenTransaction>, k: Key)
    ensures AccountAmount(ledger, k) == Credits(ledger, k) - Debits(ledger, k) + SelfTransferred(ledger, k)
  {
    if ledger != [] {
      AccountAmountSplit(ledger[..|ledger| - 1], k);
    }
  }

  // -------------------------------------------------------------------------
  // The two tables, updated in place
  // -------------------------------------------------------------------------

  class TokenTables {
    var ledger: seq<TokenTransaction>
    var balances: BalanceTable

    ghost predicate Valid()
      reads this
    {
      balances == Index(ledger)
    }

    constructor ()
      ensures Valid() && ledger == []
    {
      ledger, balances := [], map[];
    }

    method ApplyTokenBalanceDelta(address: string, tokenId: string, amount: int, minted: int, retired: int)
      modifies this`balances
      ensures balances == ApplyDelta(old(balances), Key(address, tokenId), Balance(amount, minted, retired))
    {
      var key := Key(address, tokenId);
      if key in balances {
        var row := balances[key];
        balances := balances[key := Balance(row.amount + amount, row.minted + minted, row.retired + retired)];
      } else {
        balances := balances[key := Balance(amount, minted, retired)];
      }
      var row := balances[key];
      if row.amount == 0 && row.minted == 0 && row.retired == 0 {
        balances := balances - {key};
        assert balances == old(balances) - {key};
      }
    }

    method CreateTokenTransaction(t: TokenTransaction)
      requires Valid()
      modifies this
      ensures Valid()
      ensures ledger == old(ledger) + [t]
    {
      ledger := ledger + [t];
      assert ledger[..|ledger| - 1] == old(ledger);
      if t.to != "" {
        var minted := if t.from != "" then 0 else t.amount;
        ApplyTokenBalanceDelta(t.to, t.tokenId, t.amount, minted, 0);
      }
      if t.from != "" {
        var retired := if t.to != "" then 0 else t.amount;
        ApplyTokenBalanceDelta(t.from, t.tokenId, -t.amount, 0, retired);
      }
    }
  }
}
