/** The transaction routes of the API: the validation chain and budget
    resolution of transaction creation, the three writes it issues, and the
    negate-and-reapply of transaction deletion. */
module TransactionRouter {
  import opened Base
  import opened SqlTables
  import opened DbConnectors

  /** The string the dashboard sends for "no account" / "no budget". */
  const NoneSentinel := "None"

  const AmountNotPositive := "Transaction amount must be positive and greater than 0"
  const InvalidTypeDetail := "Invalid transaction type."
  const OriginRequired := "Origin account is required for debit transactions."
  const DestinationRequired := "Destination account is required for credit transactions."
  const AccountsRequired := "Origin and destination accounts are required for transfer transactions."

  // ---------------------------------------------------------------------
  // Validation chain
  // ---------------------------------------------------------------------

  /** The checks of transaction creation, in their order, with the kind
      literal that the account check for transfers compares against. */
  function ValidateWith(transfer: string, amount: int, kind: string, origin: Option<string>, destination: Option<string>): Option<HttpError>
  {
    if amount <= 0 then Some(BadRequest(AmountNotPositive))
    else if kind !in AvailableTransactionTypes then Some(BadRequest(InvalidTypeDetail))
    else if kind == DebitKind && origin == Some(NoneSentinel) then Some(BadRequest(OriginRequired))
    else if kind == CreditKind && destination == Some(NoneSentinel) then Some(BadRequest(DestinationRequired))
    else if kind == transfer && (origin == Some(NoneSentinel) || destination == Some(NoneSentinel)) then Some(BadRequest(AccountsRequired))
    else None
  }

  /** The validation chain with the transfer check on the configured kind:
      a positive amount, a known kind, and the accounts that kind needs. */
  function ValidateTransaction(amount: int, kind: string, origin: Option<string>, destination: Option<string>): (r: Option<HttpError>)
    ensures r.None? <==>
      && amount > 0
      && kind in AvailableTransactionTypes
      && (kind == DebitKind ==> origin != Some(NoneSentinel))
      && (kind == CreditKind ==> destination != Some(NoneSentinel))
      && (kind == TransferKind ==> origin != Some(NoneSentinel) && destination != Some(NoneSentinel))
    ensures amount <= 0 ==> r == Some(BadRequest(AmountNotPositive))
    ensures amount > 0 && kind !in AvailableTransactionTypes ==> r == Some(BadRequest(InvalidTypeDetail))
    ensures r.Some? ==> r.value.BadRequest?
  {
    ValidateWith(TransferKind, amount, kind, origin, destination)
  }

  /** The validation chain as written: the transfer check compares with
      "transfer", which the type check has already refused. */
  function ValidateTransactionAsWritten(amount: int, kind: string, origin: Option<string>, destination: Option<string>): Option<HttpError>
  {
    ValidateWith("transfer", amount, kind, origin, destination)
  }

  /** As written, a "transfert" naming neither account passes validation;
      the configured check refuses it. */
  lemma TransfertWithoutAccountsAcceptedAsWritten(amount: int)
    requires amount > 0
    ensures ValidateTransactionAsWritten(amount, TransferKind, Some(NoneSentinel), Some(NoneSentinel)).None?
    ensures ValidateTransaction(amount, TransferKind, Some(NoneSentinel), Some(NoneSentinel)) == Some(BadRequest(AccountsRequired))
  {
    assert "transfer" !in AvailableTransactionTypes;
  }

  // ---------------------------------------------------------------------
  // `.strip().lower()`
  // ---------------------------------------------------------------------

  /** The ASCII characters Python's `str.strip()` removes: tab, line feed,
      vertical tab, form feed, carriage return, the four separators 28-31
      and space. */
  predicate IsSpace(c: char)
  {
    (9 <= c as int <= 13) || (28 <= c as int <= 32)
  }

  function TrimLeft(s: string): (r: string)
    ensures |r| <= |s|
  {
    if s != [] && IsSpace(s[0]) then TrimLeft(s[1..]) else s
  }

  function TrimRight(s: string): (r: string)
    ensures |r| <= |s|
  {
    if s != [] && IsSpace(s[|s| - 1]) then TrimRight(s[..|s| - 1]) else s
  }

  /** Trimming on the left drops exactly the leading whitespace. */
  lemma {:induction false} TrimLeftSpec(s: string)
    ensures var r := TrimLeft(s);
      && r == s[|s| - |r|..]
      && (r == [] || !IsSpace(r[0]))
      && forall i :: 0 <= i < |s| - |r| ==> IsSpace(s[i])
  {
    if s != [] && IsSpace(s[0]) {
      TrimLeftSpec(s[1..]);
      var r := TrimLeft(s);
      forall i | 0 <= i < |s| - |r|
        ensures IsSpace(s[i])
      {
        if i > 0 {
          assert s[i] == s[1..][i - 1];
        }
      }
    }
  }

  /** Trimming on the right drops exactly the trailing whitespace. */
  lemma {:induction false} TrimRightSpec(s: string)
    ensures var r := TrimRight(s);
      && r == s[..|r|]
      && (r == [] || !IsSpace(r[|r| - 1]))
      && forall i :: |r| <= i < |s| ==> IsSpace(s[i])
  {
    if s != [] && IsSpace(s[|s| - 1]) {
      TrimRightSpec(s[..|s| - 1]);
      var r := TrimRight(s);
      forall i | |r| <= i < |s|
        ensures IsSpace(s[i])
      {
        if i < |s| - 1 {
          assert s[i] == s[..|s| - 1][i];
        }
      }
    }
  }

  function Strip(s: string): string
  {
    TrimRight(TrimLeft(s))
  }

  predicate IsUpper(c: char) { 'A' <= c <= 'Z' }

  function LowerChar(c: char): char
  {
    if IsUpper(c) then (c as int + 32) as char else c
  }

  function Lower(s: string): (r: string)
    ensures |r| == |s|
  {
    if s == [] then [] else [LowerChar(s[0])] + Lower(s[1..])
  }

  /** Lower-casing maps each ASCII capital to its small letter and keeps
      every other character. */
  lemma {:induction false} LowerAt(s: string, i: int)
    requires 0 <= i < |s|
    ensures !IsUpper(Lower(s)[i])
    ensures IsUpper(s[i]) ==> Lower(s)[i] as int == s[i] as int + 32
    ensures !IsUpper(s[i]) ==> Lower(s)[i] == s[i]
  {
    if i > 0 {
      LowerAt(s[1..], i - 1);
    }
  }

  function Normalize(s: string): string
  {
    Lower(Strip(s))
  }

  // ---------------------------------------------------------------------
  // Budget resolution
  // ---------------------------------------------------------------------

  predicate IsDefault(r: BudgetRow)
  {
    Normalize(r.name) == "default"
  }

  predicate NameMatches(r: BudgetRow, name: string)
  {
    Normalize(r.name) == Normalize(name)
  }

  predicate Matches(r: BudgetRow, name: string, month: string)
  {
    NameMatches(r, name) && Normalize(r.month) == Normalize(month)
  }

  /** Position of the first default budget at or after `k`. */
  function FirstDefaultFrom(rows: seq<BudgetRow>, k: nat): (r: Option<nat>)
    requires k <= |rows|
    ensures r.Some? ==> k <= r.value < |rows| && IsDefault(rows[r.value])
                        && forall j :: k <= j < r.value ==> !IsDefault(rows[j])
    ensures r.None? ==> forall j :: k <= j < |rows| ==> !IsDefault(rows[j])
    decreases |rows| - k
  {
    if k == |rows| then None
    else if IsDefault(rows[k]) then Some(k)
    else FirstDefaultFrom(rows, k + 1)
  }

  /** Position of the first budget at or after `k` whose name and month both
      match. The month is only read once a name matches, so a missing month
      raises exactly when some name matches. */
  function FirstNamedFrom(rows: seq<BudgetRow>, name: string, month: Option<string>, k: nat): (r: Result<Option<nat>, HttpError>)
    requires k <= |rows|
    ensures r.Err? <==> month.None? && exists j :: k <= j < |rows| && NameMatches(rows[j], name)
    ensures r.Err? ==> r.error == ServerError("AttributeError")
    ensures r.Ok? && r.value.Some? ==>
      && month.Some? && k <= r.value.value < |rows| && Matches(rows[r.value.value], name, month.value)
      && forall j :: k <= j < r.value.value ==> !Matches(rows[j], name, month.value)
    ensures r == Ok(None) && month.Some? ==> forall j :: k <= j < |rows| ==> !Matches(rows[j], name, month.value)
    decreases |rows| - k
  {
    if k == |rows| then Ok(None)
    else if NameMatches(rows[k], name) then
      if month.None? then Err(ServerError("AttributeError"))
      else if Normalize(rows[k].month) == Normalize(month.value) then Ok(Some(k))
      else FirstNamedFrom(rows, name, month, k + 1)
    else FirstNamedFrom(rows, name, month, k + 1)
  }

  /** The budget id stored with the transaction and whether the default budget was chosen. */
  datatype Resolution = Resolution(budgetId: Option<string>, isDefault: bool)

  /** `rows[i]` is the first budget whose normalised name is 'default'. */
  predicate IsFirstDefault(rows: seq<BudgetRow>, i: int)
  {
    0 <= i < |rows| && IsDefault(rows[i]) && forall j :: 0 <= j < i ==> !IsDefault(rows[j])
  }

  /** `rows[i]` is the first budget whose normalised name and month match. */
  predicate IsFirstMatch(rows: seq<BudgetRow>, name: string, month: string, i: int)
  {
    0 <= i < |rows| && Matches(rows[i], name, month) && forall j :: 0 <= j < i ==> !Matches(rows[j], name, month)
  }

  /** The resolution, given the outcome of the sentinel test. The sentinel
      branch picks the first default budget; the other branch picks the
      first budget matching name and month, and raises AttributeError when
      `.strip()` meets a missing name (as soon as there is a row) or a
      missing month (as soon as a name matches). */
  function ResolveWith(sentinel: bool, rows: seq<BudgetRow>, name: Option<string>, month: Option<string>): (r: Result<Resolution, HttpError>)
    ensures r.Ok? ==> r.value.isDefault == sentinel
    ensures r.Err? ==> r.error == ServerError("AttributeError")
    ensures sentinel ==> r.Ok? && (r.value.budgetId.None? <==> forall j :: 0 <= j < |rows| ==> !IsDefault(rows[j]))
    ensures sentinel && r.Ok? && r.value.budgetId.Some? ==>
      exists i :: IsFirstDefault(rows, i) && r.value.budgetId == Some(rows[i].id)
    ensures !sentinel && name.None? ==> (r.Err? <==> rows != []) && (r.Ok? ==> r.value.budgetId.None?)
    ensures !sentinel && name.Some? && month.None? ==>
      && (r.Err? <==> exists j :: 0 <= j < |rows| && NameMatches(rows[j], name.value))
      && (r.Ok? ==> r.value.budgetId.None?)
    ensures !sentinel && name.Some? && month.Some? ==>
      r.Ok? && (r.value.budgetId.None? <==> forall j :: 0 <= j < |rows| ==> !Matches(rows[j], name.value, month.value))
    ensures !sentinel && name.Some? && month.Some? && r.Ok? && r.value.budgetId.Some? ==>
      exists i :: IsFirstMatch(rows, name.value, month.value, i) && r.value.budgetId == Some(rows[i].id)
  {
    if sentinel then
      var i := FirstDefaultFrom(rows, 0);
      Ok(Resolution(if i.Some? then Some(rows[i.value].id) else None, true))
    else if name.None? then
      if rows == [] then Ok(Resolution(None, false)) else Err(ServerError("AttributeError"))
    else
      match FirstNamedFrom(rows, name.value, month, 0)
      case Err(e) => Err(e)
      case Ok(None) => Ok(Resolution(None, false))
      case Ok(Some(i)) => Ok(Resolution(Some(rows[i].id), false))
  }

  /** `budget_name` "None" picks the first budget named 'default'; any other
      name picks the first budget whose name and month match. */
  function ResolveBudget(rows: seq<BudgetRow>, name: Option<string>, month: Option<string>): (r: Result<Resolution, HttpError>)
    ensures r.Ok? ==> r.value.isDefault == (name == Some(NoneSentinel))
    ensures r.Err? ==> r.error == ServerError("AttributeError")
    ensures name == Some(NoneSentinel) ==>
      r.Ok? && (r.value.budgetId.None? <==> forall j :: 0 <= j < |rows| ==> !IsDefault(rows[j]))
    ensures name == Some(NoneSentinel) && r.Ok? && r.value.budgetId.Some? ==>
      exists i :: IsFirstDefault(rows, i) && r.value.budgetId == Some(rows[i].id)
    ensures name.None? ==> (r.Err? <==> rows != []) && (r.Ok? ==> r.value.budgetId.None?)
    ensures name.Some? && name != Some(NoneSentinel) && month.None? ==>
      && (r.Err? <==> exists j :: 0 <= j < |rows| && NameMatches(rows[j], name.value))
      && (r.Ok? ==> r.value.budgetId.None?)
    ensures name.Some? && name != Some(NoneSentinel) && month.Some? ==>
      r.Ok? && (r.value.budgetId.None? <==> forall j :: 0 <= j < |rows| ==> !Matches(rows[j], name.value, month.value))
    ensures name.Some? && name != Some(NoneSentinel) && month.Some? && r.Ok? && r.value.budgetId.Some? ==>
      exists i :: IsFirstMatch(rows, name.value, month.value, i) && r.value.budgetId == Some(rows[i].id)
  {
    ResolveWith(name == Some(NoneSentinel), rows, name, month)
  }

  /** The resolution as written: `budget_name is "None"` compares object
      identity, which a string built from a request never shares with the
      literal, so the sentinel branch is never taken. */
  function ResolveBudgetAsWritten(rows: seq<BudgetRow>, name: Option<string>, month: Option<string>): Result<Resolution, HttpError>
  {
    ResolveWith(false, rows, name, month)
  }

  lemma LowerNone()
    ensures Normalize(NoneSentinel) == "none"
  {
    assert Strip(NoneSentinel) == NoneSentinel;
    assert Lower("e") == "e";
    assert Lower("ne") == "ne";
    assert Lower("one") == "one";
    assert Lower("None") == [LowerChar('N')] + Lower("one");
  }

  /** As written, "None" is looked up as a budget name: with no budget named
      "none" the transaction is stored without a budget id and the default
      budget is not chosen. */
  lemma NoneSentinelMissedAsWritten(rows: seq<BudgetRow>, month: Option<string>)
    requires forall j :: 0 <= j < |rows| ==> Normalize(rows[j].name) != "none"
    ensures ResolveBudgetAsWritten(rows, Some(NoneSentinel), month) == Ok(Resolution(None, false))
    ensures ResolveBudget(rows, Some(NoneSentinel), month).Ok?
    ensures ResolveBudget(rows, Some(NoneSentinel), month).value.isDefault
  {
    LowerNone();
    var r := FirstNamedFrom(rows, NoneSentinel, month, 0);
    assert forall j :: 0 <= j < |rows| ==> !NameMatches(rows[j], NoneSentinel);
    assert r == Ok(None);
  }

  // ---------------------------------------------------------------------
  // Creation
  // ---------------------------------------------------------------------

  datatype CreateRequest = CreateRequest(
    date: Option<string>,            // the date after `strptime(.., '%Y-%m-%d')`; None when it does not parse
    kind: string, amount: int,
    origin: Option<string>, destination: Option<string>,
    budgetName: Option<string>, budgetMonth: Option<string>,
    category: string, recipient: string, description: string,
    id: string)                      // the generated transaction id

  /** The row the insert adds. */
  function RecordRow(req: CreateRequest, budgetId: Option<string>): TransactionRow
    requires req.date.Some?
  {
    TransactionRow(req.id, req.date.value, req.kind, req.amount, req.origin, req.destination, budgetId,
                   req.category, req.recipient, req.description)
  }

  function RecordArguments(req: CreateRequest, budgetId: Option<string>): Additional
    requires req.date.Some?
  {
    Items([Text(req.id), Text(req.date.value), Text(req.kind), Num(req.amount), OptionalText(req.origin),
           OptionalText(req.destination), OptionalText(budgetId), Text(req.category), Text(req.recipient),
           Text(req.description)])
  }

  function AccountArguments(kind: string, amount: int, origin: Option<string>, destination: Option<string>): Additional
  {
    Items([Text(kind), Num(amount), OptionalText(origin), OptionalText(destination)])
  }

  /** The transactions table after the insert: a duplicate primary key makes
      the statement fail, and the connector only prints that. */
  function Inserted(rows: seq<TransactionRow>, row: TransactionRow): seq<TransactionRow>
  {
    if HasTransactionId(rows, row.id) then rows else rows + [row]
  }

  lemma InsertRecordEffect(t: Tables, req: CreateRequest, budgetId: Option<string>)
    requires req.date.Some?
    ensures InsertValues(t, CreateNewTransaction, RecordArguments(req, budgetId))
         == (None, t.(transactions := Inserted(t.transactions, RecordRow(req, budgetId))))
  {
    assert Arguments(RecordArguments(req, budgetId)) == RecordArguments(req, budgetId).items;
  }

  /** `app_create_transaction`, given whether awaiting the generated id
      raises: validate, resolve the budget, parse the date, generate the id,
      then insert the record, update the accounts and, unless the default
      budget was chosen, charge the budget. None of the three writes makes
      the connector raise (InsertRecordEffect, ApplyToAccountsEffect,
      ApplyToBudgetEffect), so their effect is stated directly. */
  function CreateWith(idAwaitRaises: bool, t: Tables, req: CreateRequest): (Result<(), HttpError>, Tables)
  {
    match ValidateTransaction(req.amount, req.kind, req.origin, req.destination)
    case Some(e) => (Err(e), t)
    case None =>
      match ResolveBudget(t.budgets, req.budgetName, req.budgetMonth)
      case Err(e) => (Err(e), t)
      case Ok(res) =>
        if req.date.None? then (Err(ServerError("ValueError")), t)
        else if idAwaitRaises then (Err(ServerError("TypeError")), t)
        else
          (Ok(()), Tables(
            AccountsAfter(t.accounts, req.kind, req.amount, req.origin, req.destination),
            if res.isDefault then t.budgets else Charge(t.budgets, res.budgetId, req.amount),
            Inserted(t.transactions, RecordRow(req, res.budgetId))))
  }

  /** Transaction creation with the id generated synchronously. A rejection
      writes nothing: a 400 from validation comes before anything else, then
      the errors of budget resolution, then the date that does not parse. */
  function CreateEffect(t: Tables, req: CreateRequest): (r: (Result<(), HttpError>, Tables))
    ensures var invalid := ValidateTransaction(req.amount, req.kind, req.origin, req.destination);
      invalid.Some? ==> r == (Err(invalid.value), t)
    ensures var resolved := ResolveBudget(t.budgets, req.budgetName, req.budgetMonth);
      ValidateTransaction(req.amount, req.kind, req.origin, req.destination).None? && resolved.Err? ==>
      r == (Err(resolved.error), t)
    ensures ValidateTransaction(req.amount, req.kind, req.origin, req.destination).None?
            && ResolveBudget(t.budgets, req.budgetName, req.budgetMonth).Ok? && req.date.None? ==>
      r == (Err(ServerError("ValueError")), t)
    ensures r.0.Ok? <==>
      && ValidateTransaction(req.amount, req.kind, req.origin, req.destination).None?
      && ResolveBudget(t.budgets, req.budgetName, req.budgetMonth).Ok?
      && req.date.Some?
    ensures r.0.Err? ==> r.1 == t
  {
    CreateWith(false, t, req)
  }

  /** Transaction creation as written: the route awaits `generate_uuid()`,
      which returns a plain string, so a TypeError is raised after the date
      is parsed and before the first write. */
  function CreateEffectAsWritten(t: Tables, req: CreateRequest): (Result<(), HttpError>, Tables)
  {
    CreateWith(true, t, req)
  }

  /** As written, creation never writes: every request is rejected with the
      tables unchanged, and each one the corrected route accepts ends in the
      TypeError of the awaited id. */
  lemma CreateNeverWritesAsWritten(t: Tables, req: CreateRequest)
    ensures CreateEffectAsWritten(t, req).1 == t
    ensures CreateEffectAsWritten(t, req).0.Err?
    ensures CreateEffect(t, req).0.Ok? ==> CreateEffectAsWritten(t, req).0 == Err(ServerError("TypeError"))
    ensures CreateEffect(t, req).0.Err? ==> CreateEffectAsWritten(t, req) == CreateEffect(t, req)
  {
  }

  /** A request with an id already in the table still moves money: the
      insert fails and is only printed, the two updates run. */
  lemma DuplicateIdStillMovesMoney(t: Tables, req: CreateRequest)
    requires ValidateTransaction(req.amount, req.kind, req.origin, req.destination).None?
    requires ResolveBudget(t.budgets, req.budgetName, req.budgetMonth).Ok?
    requires req.date.Some? && HasTransactionId(t.transactions, req.id)
    ensures CreateEffect(t, req).0.Ok?
    ensures CreateEffect(t, req).1.transactions == t.transactions
    ensures CreateEffect(t, req).1.accounts == AccountsAfter(t.accounts, req.kind, req.amount, req.origin, req.destination)
  {
  }

  /** The budget update subtracts for a credit as well. */
  lemma CreditChargesBudget(t: Tables, req: CreateRequest, budgetId: string)
    requires req.kind == CreditKind
    requires ValidateTransaction(req.amount, req.kind, req.origin, req.destination).None?
    requires ResolveBudget(t.budgets, req.budgetName, req.budgetMonth) == Ok(Resolution(Some(budgetId), false))
    requires req.date.Some?
    ensures var after := CreateEffect(t, req).1.budgets;
      |after| == |t.budgets| &&
      forall i :: 0 <= i < |t.budgets| && t.budgets[i].id == budgetId ==> after[i].amount == t.budgets[i].amount - req.amount
  {
    var after := CreateEffect(t, req).1.budgets;
    assert after == Charge(t.budgets, Some(budgetId), req.amount);
    forall i | 0 <= i < |t.budgets| && t.budgets[i].id == budgetId
      ensures after[i].amount == t.budgets[i].amount - req.amount
    {
      ChargeAt(t.budgets, Some(budgetId), req.amount, i);
    }
  }

  // ---------------------------------------------------------------------
  // Deletion
  // ---------------------------------------------------------------------

  /** `app_delete_transaction`, given the spelling of the transfer kind it
      tests: fetch the record, negate its amount, re-apply it to the accounts
      when its kind is one of the three it tests, always re-apply it to its
      budget, then delete it. */
  function DeleteWith(transfer: string, t: Tables, id: string): (Result<(), HttpError>, Tables)
  {
    match FindTransaction(t.transactions, id)
    case None => (Err(ServerError("AttributeError")), t)
    case Some(row) =>
      (Ok(()), Tables(
        if row.kind in [DebitKind, CreditKind, transfer]
        then AccountsAfter(t.accounts, row.kind, -row.amount, row.origin, row.destination)
        else t.accounts,
        Charge(t.budgets, row.budget, -row.amount),
        DeleteTransactions(t.transactions, Some(id))))
  }

  function DeleteEffect(t: Tables, id: string): (Result<(), HttpError>, Tables)
  {
    DeleteWith(TransferKind, t, id)
  }

  /** The deletion as written tests for "transfer". */
  function DeleteEffectAsWritten(t: Tables, id: string): (Result<(), HttpError>, Tables)
  {
    DeleteWith("transfer", t, id)
  }

  lemma DeleteRecordEffect(t: Tables, id: string)
    ensures InsertValues(t, DeleteTransactionRequest, Str(id)) == (None, t.(transactions := DeleteTransactions(t.transactions, Some(id))))
  {
  }

  /** As written, deleting a stored transfer leaves every balance as it is. */
  lemma TransfertNotReversedAsWritten(t: Tables, row: TransactionRow)
    requires FindTransaction(t.transactions, row.id) == Some(row) && row.kind == TransferKind
    ensures DeleteEffectAsWritten(t, row.id).1.accounts == t.accounts
    ensures DeleteEffect(t, row.id).1.accounts == AccountsAfter(t.accounts, TransferKind, -row.amount, row.origin, row.destination)
  {
  }

  /** Deleting a row just appended to `t`'s transactions. */
  lemma DeleteCreated(t: Tables, t1: Tables, row: TransactionRow)
    requires !HasTransactionId(t.transactions, row.id) && row.kind in AvailableTransactionTypes
    requires t1.transactions == t.transactions + [row]
    ensures DeleteEffect(t1, row.id).0.Ok?
    ensures DeleteEffect(t1, row.id).1 == Tables(
      AccountsAfter(t1.accounts, row.kind, -row.amount, row.origin, row.destination),
      Charge(t1.budgets, row.budget, -row.amount),
      t.transactions)
  {
    FindAppended(t.transactions, row);
    DeleteAppended(t.transactions, row);
  }

  /** The tables after a successful creation with a fresh id. */
  lemma CreatedTables(t: Tables, req: CreateRequest)
    requires ValidateTransaction(req.amount, req.kind, req.origin, req.destination).None?
    requires ResolveBudget(t.budgets, req.budgetName, req.budgetMonth).Ok?
    requires req.date.Some? && !HasTransactionId(t.transactions, req.id)
    ensures var res := ResolveBudget(t.budgets, req.budgetName, req.budgetMonth).value;
      CreateEffect(t, req) == (Ok(()), Tables(
        AccountsAfter(t.accounts, req.kind, req.amount, req.origin, req.destination),
        if res.isDefault then t.budgets else Charge(t.budgets, res.budgetId, req.amount),
        t.transactions + [RecordRow(req, res.budgetId)]))
  {
  }

  /** Deleting a record just appended with its two updates undoes all three. */
  lemma RecordedThenDeleteRestores(t: Tables, req: CreateRequest, budgetId: Option<string>)
    requires !HasTransactionId(t.transactions, req.id) && req.date.Some? && req.kind in AvailableTransactionTypes
    ensures var t1 := Tables(AccountsAfter(t.accounts, req.kind, req.amount, req.origin, req.destination),
                             Charge(t.budgets, budgetId, req.amount), t.transactions + [RecordRow(req, budgetId)]);
      DeleteEffect(t1, req.id).1 == t
  {
    var row := RecordRow(req, budgetId);
    var t1 := Tables(AccountsAfter(t.accounts, req.kind, req.amount, req.origin, req.destination),
                     Charge(t.budgets, budgetId, req.amount), t.transactions + [row]);
    DeleteCreated(t, t1, row);
    ApplyThenNegateRestores(t.accounts, req.kind, req.amount, req.origin, req.destination);
    ChargeUndo(t.budgets, budgetId, req.amount);
  }

  /** A successful creation with a fresh id and a non-default budget is
      undone by deleting that id. */
  lemma AcceptedCreateThenDeleteRestores(t: Tables, req: CreateRequest, res: Resolution)
    requires !HasTransactionId(t.transactions, req.id) && req.date.Some?
    requires ValidateTransaction(req.amount, req.kind, req.origin, req.destination).None?
    requires ResolveBudget(t.budgets, req.budgetName, req.budgetMonth) == Ok(res) && !res.isDefault
    ensures DeleteEffect(CreateEffect(t, req).1, req.id).1 == t
  {
    CreatedTables(t, req);
    RecordedThenDeleteRestores(t, req, res.budgetId);
  }

  /** Create followed by delete of the same fresh id restores every table,
      whenever the default budget was not chosen. */
  lemma CreateThenDeleteRestores(t: Tables, req: CreateRequest)
    requires !HasTransactionId(t.transactions, req.id)
    requires ResolveBudget(t.budgets, req.budgetName, req.budgetMonth).Ok? ==>
             !ResolveBudget(t.budgets, req.budgetName, req.budgetMonth).value.isDefault
    ensures DeleteEffect(CreateEffect(t, req).1, req.id).1 == t
  {
    var resolved := ResolveBudget(t.budgets, req.budgetName, req.budgetMonth);
    if ValidateTransaction(req.amount, req.kind, req.origin, req.destination).None? && resolved.Ok? && req.date.Some? {
      AcceptedCreateThenDeleteRestores(t, req, resolved.value);
    } else {
      assert CreateEffect(t, req).1 == t;
    }
  }

  /** Deleting a record appended without a budget charge still charges its
      budget with the negated amount. */
  lemma RecordedDefaultThenDelete(t: Tables, req: CreateRequest, defaultId: string)
    requires !HasTransactionId(t.transactions, req.id) && req.date.Some? && req.kind in AvailableTransactionTypes
    ensures var t1 := Tables(AccountsAfter(t.accounts, req.kind, req.amount, req.origin, req.destination),
                             t.budgets, t.transactions + [RecordRow(req, Some(defaultId))]);
      DeleteEffect(t1, req.id).1 == Tables(t.accounts, Charge(t.budgets, Some(defaultId), -req.amount), t.transactions)
  {
    var row := RecordRow(req, Some(defaultId));
    var t1 := Tables(AccountsAfter(t.accounts, req.kind, req.amount, req.origin, req.destination),
                     t.budgets, t.transactions + [row]);
    DeleteCreated(t, t1, row);
    ApplyThenNegateRestores(t.accounts, req.kind, req.amount, req.origin, req.destination);
  }

  /** With the default budget, create leaves budgets alone but delete still
      re-applies the negated amount to it: after create and delete the
      default budget has gained the amount. */
  lemma DefaultBudgetDrift(t: Tables, req: CreateRequest, defaultId: string)
    requires ValidateTransaction(req.amount, req.kind, req.origin, req.destination).None?
    requires ResolveBudget(t.budgets, req.budgetName, req.budgetMonth) == Ok(Resolution(Some(defaultId), true))
    requires req.date.Some? && !HasTransactionId(t.transactions, req.id)
    ensures var after := DeleteEffect(CreateEffect(t, req).1, req.id).1;
      && after.accounts == t.accounts && after.transactions == t.transactions
      && after.budgets == Charge(t.budgets, Some(defaultId), -req.amount)
  {
    CreatedTables(t, req);
    RecordedDefaultThenDelete(t, req, defaultId);
  }

  // ---------------------------------------------------------------------
  // The routes, issuing their writes through the connector
  // ---------------------------------------------------------------------

  method CreateTransaction(db: Database, req: CreateRequest) returns (r: Result<(), HttpError>)
    modifies db
    ensures (r, db.Snapshot()) == CreateEffect(old(db.Snapshot()), req)
  {
    var invalid := ValidateTransaction(req.amount, req.kind, req.origin, req.destination);
    if invalid.Some? {
      return Err(invalid.value);
    }
    var results := db.budgets;
    var resolved := ResolveBudget(results, req.budgetName, req.budgetMonth);
    if resolved.Err? {
      return Err(resolved.error);
    }
    if req.date.None? {
      return Err(ServerError("ValueError"));
    }
    var budgetId := resolved.value.budgetId;
    ghost var before := db.Snapshot();
    var raised := db.QueryInsertValues(CreateNewTransaction, RecordArguments(req, budgetId));
    InsertRecordEffect(before, req, budgetId);
    assert raised.None?;

    before := db.Snapshot();
    raised := db.QueryInsertValues(ApplyToAccounts, AccountArguments(req.kind, req.amount, req.origin, req.destination));
    ApplyToAccountsEffect(before, req.kind, req.amount, req.origin, req.destination);
    assert raised.None?;

    if !resolved.value.isDefault {
      before := db.Snapshot();
      raised := db.QueryInsertValues(ApplyToBudget, Items([Num(req.amount), OptionalText(budgetId)]));
      ApplyToBudgetEffect(before, req.amount, budgetId);
      assert raised.None?;
    }
    r := Ok(());
  }

  method DeleteTransaction(db: Database, id: string) returns (r: Result<(), HttpError>)
    modifies db
    ensures (r, db.Snapshot()) == DeleteEffect(old(db.Snapshot()), id)
  {
    var results := FindTransaction(db.transactions, id);
    if results.None? {
      return Err(ServerError("AttributeError"));
    }
    var info := results.value;
    var amount := -info.amount;
    ghost var t := db.Snapshot();
    ghost var accounts := if info.kind in [DebitKind, CreditKind, TransferKind]
                          then AccountsAfter(t.accounts, info.kind, amount, info.origin, info.destination)
                          else t.accounts;
    ghost var budgets := Charge(t.budgets, info.budget, amount);
    assert DeleteEffect(t, id) == (Ok(()), Tables(accounts, budgets, DeleteTransactions(t.transactions, Some(id))));

    var raised: Option<ConnectorError>;
    if info.kind in [DebitKind, CreditKind, TransferKind] {
      raised := db.QueryInsertValues(ApplyToAccounts, AccountArguments(info.kind, amount, info.origin, info.destination));
      ApplyToAccountsEffect(t, info.kind, amount, info.origin, info.destination);
      assert raised.None?;
    }
    assert db.Snapshot() == t.(accounts := accounts);

    raised := db.QueryInsertValues(ApplyToBudget, Items([Num(amount), OptionalText(info.budget)]));
    ApplyToBudgetEffect(t.(accounts := accounts), amount, info.budget);
    assert raised.None?;

    raised := db.QueryInsertValues(DeleteTransactionRequest, Str(id));
    DeleteRecordEffect(Tables(accounts, budgets, t.transactions), id);
    assert raised.None?;
    r := Ok(());
  }
}
