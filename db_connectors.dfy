/** The database connector of the API: argument normalisation, the lookup
    of a named statement, the per-kind rewriting of the arguments of the
    account update, and the tables the statements change. The connection
    itself is replaced by the in-memory tables of a `Database` object. */
module DbConnectors {
  import opened Base
  import opened SqlTables

  /** What a caller passes as `additional`: one string, a tuple, or `None`. */
  datatype Additional = Str(s: string) | Items(items: seq<Param>) | NoArgs

  /** A lone string becomes a one-element tuple; anything else is kept. */
  function TransformAdditional(a: Additional): (r: Additional)
    ensures !r.Str?
    ensures a.Str? ==> r == Items([Text(a.s)])
    ensures !a.Str? ==> r == a
  {
    if a.Str? then Items([Text(a.s)]) else a
  }

  /** The arguments finally handed to the driver (`None` becomes `[]`). */
  function Arguments(a: Additional): (ps: seq<Param>)
    ensures a.Str? ==> ps == [Text(a.s)]
    ensures a.Items? ==> ps == a.items
    ensures a.NoArgs? ==> ps == []
  {
    match TransformAdditional(a)
    case Items(items) => items
    case _ => []
  }

  /** Exceptions that leave the connector (all raised before connecting). */
  datatype ConnectorError =
    | InvalidRequest(request: string)   // unknown `request_to_do`
    | IndexError                        // `additional[0]` or a `pop` on a too short tuple
    | UnpackError                       // a transfer tuple that is not (amount, origin, destination)

  const CreateNewAccount := "create_new_account"
  const DeleteAccountRequest := "delete_account"
  const CreateNewBudget := "create_new_budget"
  const DeleteBudgetRequest := "delete_budget"
  const CreateNewTransaction := "create_new_transaction"
  const DeleteTransactionRequest := "delete_transaction"
  const ApplyToBudget := "apply_transaction_to_budget"
  const ApplyToAccounts := "apply_transaction_to_accounts"

  /** The statement named by `request_to_do` in `query_insert_values`. */
  function InsertQuery(request: string): (r: Option<Statement>)
    ensures r.Some? <==> request in [CreateNewAccount, DeleteAccountRequest, CreateNewBudget, DeleteBudgetRequest,
                                     CreateNewTransaction, DeleteTransactionRequest, ApplyToBudget, ApplyToAccounts]
    ensures request == ApplyToAccounts <==> r == Some(UpdateAccounts)
    ensures request == ApplyToBudget <==> r == Some(ChargeBudget)
  {
    if request == CreateNewAccount then Some(InsertAccount)
    else if request == DeleteAccountRequest then Some(DeleteAccount)
    else if request == CreateNewBudget then Some(InsertBudget)
    else if request == DeleteBudgetRequest then Some(DeleteBudget)
    else if request == CreateNewTransaction then Some(InsertTransaction)
    else if request == DeleteTransactionRequest then Some(DeleteTransaction)
    else if request == ApplyToBudget then Some(ChargeBudget)
    else if request == ApplyToAccounts then Some(UpdateAccounts)
    else None
  }

  /** The read queries of `query_for_informations`. */
  datatype SelectQuery = UsernameInformations | ExistingAccounts | ExistingBudgets
                       | ExistingTransactions | TransactionById | ExistingCategories

  function InformationQuery(request: string): (r: Option<SelectQuery>)
    ensures r.Some? <==> request in ["get_username_informations", "get_existing_accounts", "get_existing_budgets",
                                     "get_existing_transactions", "get_transaction_by_id", "get_existing_categories"]
  {
    if request == "get_username_informations" then Some(UsernameInformations)
    else if request == "get_existing_accounts" then Some(ExistingAccounts)
    else if request == "get_existing_budgets" then Some(ExistingBudgets)
    else if request == "get_existing_transactions" then Some(ExistingTransactions)
    else if request == "get_transaction_by_id" then Some(TransactionById)
    else if request == "get_existing_categories" then Some(ExistingCategories)
    else None
  }

  /** The rewriting of the `(kind, amount, origin, destination)` arguments of
      the account update, with the kind literal the transfer branch tests. */
  function RewriteWith(transfer: string, items: seq<Param>): (r: Result<(Statement, seq<Param>), ConnectorError>)
    requires transfer !in [CreditKind, DebitKind]
    ensures |items| == 4 && items[0] == Text(CreditKind) ==> r == Ok((CreditAccount, [items[1], items[3]]))
    ensures |items| == 4 && items[0] == Text(DebitKind) ==> r == Ok((DebitAccount, [items[1], items[2]]))
    ensures |items| == 4 && items[0] == Text(transfer) ==> r == Ok((TransferAccounts, [items[2], items[3], items[1]]))
    ensures |items| > 0 && items[0] !in [Text(CreditKind), Text(DebitKind), Text(transfer)] ==> r == Ok((UpdateAccounts, items))
    ensures r.Err? ==> |items| != 4
  {
    if |items| == 0 then Err(IndexError)
    else
      var kind := items[0];
      var rest := items[1..];
      if kind == Text(CreditKind) then
        if |rest| < 2 then Err(IndexError)
        else
          assert |items| == 4 ==> rest[..1] + rest[2..] == [items[1], items[3]];
          Ok((CreditAccount, rest[..1] + rest[2..]))
      else if kind == Text(DebitKind) then
        if |rest| < 3 then Err(IndexError)
        else
          assert |items| == 4 ==> rest[..2] + rest[3..] == [items[1], items[2]];
          Ok((DebitAccount, rest[..2] + rest[3..]))
      else if kind == Text(transfer) then
        if |rest| != 3 then Err(UnpackError) else Ok((TransferAccounts, [rest[1], rest[2], rest[0]]))
      else Ok((UpdateAccounts, items))
  }

  /** The rewriting with the configured transfer kind. */
  function RewriteAccountArguments(items: seq<Param>): Result<(Statement, seq<Param>), ConnectorError>
  {
    RewriteWith(TransferKind, items)
  }

  /** The rewriting as the connector spells it: it tests for "transfer",
      a kind the API never accepts. */
  function RewriteAccountArgumentsAsWritten(items: seq<Param>): Result<(Statement, seq<Param>), ConnectorError>
  {
    RewriteWith("transfer", items)
  }

  /** A failing statement is rolled back with its own database transaction,
      and its error is only printed. */
  function Run(t: Tables, st: Statement, ps: seq<Param>): Tables
  {
    match Exec(t, st, ps)
    case Some(next) => next
    case None => t
  }

  /** `query_insert_values`: the exception it raises, if any, and the tables after it. */
  function InsertValues(t: Tables, request: string, additional: Additional): (r: (Option<ConnectorError>, Tables))
    ensures r.0.Some? ==> r.1 == t
    ensures InsertQuery(request).None? <==> r.0 == Some(InvalidRequest(request))
    ensures request != ApplyToAccounts ==> r.0.None? || r.0 == Some(InvalidRequest(request))
  {
    var items := Arguments(additional);
    match InsertQuery(request)
    case None => (Some(InvalidRequest(request)), t)
    case Some(st) =>
      if st == UpdateAccounts then
        match RewriteAccountArguments(items)
        case Err(e) => (Some(e), t)
        case Ok(rewritten) => (None, Run(t, rewritten.0, rewritten.1))
      else (None, Run(t, st, items))
  }

  /** The accounts after `apply_transaction_to_accounts` with the arguments
      `(kind, a, origin, destination)` that the transaction router sends. */
  function AccountsAfter(rows: seq<AccountRow>, kind: string, a: int, origin: Option<string>, destination: Option<string>): seq<AccountRow>
  {
    if kind == CreditKind then Adjust(rows, None, 0, destination, a)
    else if kind == DebitKind then Adjust(rows, origin, a, None, 0)
    else if kind == TransferKind then Adjust(rows, origin, a, destination, a)
    else rows
  }

  /** The account update never raises on a router tuple; credit touches only
      the destination, debit only the origin, a transfer both, and any other
      kind reaches the generic statement, whose fourth argument is not a
      number, so nothing changes. */
  lemma ApplyToAccountsEffect(t: Tables, kind: string, a: int, origin: Option<string>, destination: Option<string>)
    ensures InsertValues(t, ApplyToAccounts, Items([Text(kind), Num(a), OptionalText(origin), OptionalText(destination)]))
         == (None, t.(accounts := AccountsAfter(t.accounts, kind, a, origin, destination)))
  {
    var items := [Text(kind), Num(a), OptionalText(origin), OptionalText(destination)];
    assert Arguments(Items(items)) == items;
    if kind !in [CreditKind, DebitKind, TransferKind] {
      assert Exec(t, UpdateAccounts, items).None?;
    }
  }

  /** The budget update subtracts the amount from the rows with that id,
      whatever the kind of the transaction. */
  lemma ApplyToBudgetEffect(t: Tables, a: int, id: Option<string>)
    ensures InsertValues(t, ApplyToBudget, Items([Num(a), OptionalText(id)])) == (None, t.(budgets := Charge(t.budgets, id, a)))
  {
    assert Arguments(Items([Num(a), OptionalText(id)])) == [Num(a), OptionalText(id)];
  }

  /** Applying `a` and then `-a` with the same kind and accounts restores
      every balance. */
  lemma ApplyThenNegateRestores(rows: seq<AccountRow>, kind: string, a: int, origin: Option<string>, destination: Option<string>)
    ensures AccountsAfter(AccountsAfter(rows, kind, a, origin, destination), kind, -a, origin, destination) == rows
  {
    if kind == CreditKind {
      AdjustUndo(rows, None, 0, destination, a);
    } else if kind == DebitKind {
      AdjustUndo(rows, origin, a, None, 0);
    } else if kind == TransferKind {
      AdjustUndo(rows, origin, a, destination, a);
    }
  }

  /** A transfer between two distinct, uniquely named accounts conserves the
      sum of all balances. */
  lemma TransferConserves(t: Tables, a: int, origin: string, destination: string)
    requires origin != destination && Count(t.accounts, origin) == 1 && Count(t.accounts, destination) == 1
    ensures InsertValues(t, ApplyToAccounts, Items([Text(TransferKind), Num(a), Text(origin), Text(destination)])).0.None?
    ensures Total(InsertValues(t, ApplyToAccounts, Items([Text(TransferKind), Num(a), Text(origin), Text(destination)])).1.accounts)
         == Total(t.accounts)
  {
    ApplyToAccountsEffect(t, TransferKind, a, Some(origin), Some(destination));
    TransferConservesTotal(t.accounts, origin, destination, a);
  }

  /** As written, a "transfert" tuple is not rewritten: it reaches the generic
      statement with a text in a numeric slot, the statement fails, and no
      balance moves. */
  lemma TransfertMovesNothingAsWritten(t: Tables, a: int, origin: string, destination: string)
    ensures RewriteAccountArgumentsAsWritten([Text(TransferKind), Num(a), Text(origin), Text(destination)])
         == Ok((UpdateAccounts, [Text(TransferKind), Num(a), Text(origin), Text(destination)]))
    ensures Run(t, UpdateAccounts, [Text(TransferKind), Num(a), Text(origin), Text(destination)]) == t
  {
  }

  /** The in-memory stand-in for the PostgreSQL database. */
  class Database {
    var accounts: seq<AccountRow>
    var budgets: seq<BudgetRow>
    var transactions: seq<TransactionRow>

    function Snapshot(): Tables
      reads this
    {
      Tables(accounts, budgets, transactions)
    }

    constructor (t: Tables)
      ensures Snapshot() == t
    {
      accounts, budgets, transactions := t.accounts, t.budgets, t.transactions;
    }

    /** Look the statement up, rewrite the account-update arguments by
        popping from a list, then run the statement in its own transaction. */
    method QueryInsertValues(request: string, additional: Additional) returns (raised: Option<ConnectorError>)
      modifies this
      ensures (raised, Snapshot()) == InsertValues(old(Snapshot()), request, additional)
    {
      var args := Arguments(additional);
      var query := InsertQuery(request);
      if query.None? {
        return Some(InvalidRequest(request));
      }
      var statement := query.value;
      if statement == UpdateAccounts {
        if |args| == 0 {
          return Some(IndexError);
        }
        var kind := args[0];
        var list := args[1..];
        if kind == Text(CreditKind) {
          if |list| < 2 {
            return Some(IndexError);
          }
          list := list[..1] + list[2..];
          args, statement := list, CreditAccount;
        }
        if kind == Text(DebitKind) {
          if |list| < 3 {
            return Some(IndexError);
          }
          list := list[..2] + list[3..];
          args, statement := list, DebitAccount;
        }
        if kind == Text(TransferKind) {
          if |list| != 3 {
            return Some(UnpackError);
          }
          args, statement := [list[1], list[2], list[0]], TransferAccounts;
        }
      }
      var next := Exec(Snapshot(), statement, args);
      if next.Some? {
        accounts, budgets, transactions := next.value.accounts, next.value.budgets, next.value.transactions;
      }
      raised := None;
    }
  }
}
