/** The Account, Budget and Transaction objects of the bank package, as their
    unit tests pin them: validated construction, deposits and withdrawals
    that move `amount` and append to the ordered `history`, and budget
    top-ups and withdrawals. Amounts are in cents; the clock is a parameter. */
module BankObjects {
  import opened Base

  /** The two exceptions the objects raise. */
  datatype ObjectError = TypeError | ValueError

  /** The account types the objects accept. */
  const AccountTypes: seq<string> := ["checking", "savings"]

  const DepositEntry := "deposit"
  const WithdrawEntry := "withdraw"

  /** One line of an account's history. */
  datatype HistoryEntry = HistoryEntry(date: string, transactionId: string, kind: string, amount: int)

  /** What an entry did to the balance. */
  function Signed(e: HistoryEntry): int
  {
    if e.kind == DepositEntry then e.amount else -e.amount
  }

  /** The net movement recorded by a history. */
  function Net(h: seq<HistoryEntry>): int
  {
    if h == [] then 0 else Net(h[..|h| - 1]) + Signed(h[|h| - 1])
  }

  /** Appending an entry adds its signed amount to the net movement. */
  lemma NetAppend(h: seq<HistoryEntry>, e: HistoryEntry)
    ensures Net(h + [e]) == Net(h) + Signed(e)
  {
    assert (h + [e])[..|h|] == h;
  }

  /** The constructor checks of an account: the type first, then the amount. */
  function CheckAccount(kind: string, amount: int): (r: Option<ObjectError>)
    ensures r.None? <==> kind in AccountTypes && amount >= 0
    ensures kind !in AccountTypes ==> r == Some(TypeError)
    ensures kind in AccountTypes && amount < 0 ==> r == Some(ValueError)
  {
    if kind !in AccountTypes then Some(TypeError)
    else if amount < 0 then Some(ValueError)
    else None
  }

  class Account {
    var name: string
    var kind: string
    var amount: int
    var history: seq<HistoryEntry>
    /** The amount the account was opened with. */
    ghost var opening: int

    /** A valid type, a balance that never goes negative, and a history that
        accounts for every change of the balance since opening. */
    ghost predicate Valid()
      reads this
    {
      kind in AccountTypes && amount >= 0 && amount == opening + Net(history)
    }

    constructor (name: string, kind: string, amount: int)
      requires CheckAccount(kind, amount).None?
      ensures this.name == name && this.kind == kind && this.amount == amount && history == []
      ensures Valid()
    {
      this.name, this.kind, this.amount, history := name, kind, amount, [];
      opening := amount;
    }

    /** `Account(name, type, amount)`, raising on a bad type or a negative amount. */
    static method New(name: string, kind: string, amount: int) returns (r: Result<Account, ObjectError>)
      ensures r.Ok? <==> CheckAccount(kind, amount).None?
      ensures r.Err? ==> Some(r.error) == CheckAccount(kind, amount)
      ensures r.Ok? ==> fresh(r.value) && r.value.Valid()
      ensures r.Ok? ==> r.value.name == name && r.value.kind == kind && r.value.amount == amount && r.value.history == []
    {
      var failure := CheckAccount(kind, amount);
      if failure.Some? {
        return Err(failure.value);
      }
      var account := new Account(name, kind, amount);
      r := Ok(account);
    }

    /** `deposit`: a negative amount raises; otherwise the balance rises by
        it and a "deposit" entry is appended. */
    method Deposit(a: int, transactionId: string, date: string) returns (r: Option<ObjectError>)
      requires Valid()
      modifies this
      ensures Valid()
      ensures name == old(name) && kind == old(kind)
      ensures a < 0 ==> r == Some(ValueError) && amount == old(amount) && history == old(history)
      ensures a >= 0 ==>
        && r.None? && amount == old(amount) + a
        && history == old(history) + [HistoryEntry(date, transactionId, DepositEntry, a)]
    {
      if a < 0 {
        return Some(ValueError);
      }
      var entry := HistoryEntry(date, transactionId, DepositEntry, a);
      NetAppend(history, entry);
      amount := amount + a;
      history := history + [entry];
      r := None;
    }

    /** `withdraw`: a negative amount raises, then an amount above the
        balance raises; otherwise the balance falls by it and a "withdraw"
        entry is appended. */
    method Withdraw(a: int, transactionId: string, date: string) returns (r: Option<ObjectError>)
      requires Valid()
      modifies this
      ensures Valid()
      ensures name == old(name) && kind == old(kind)
      ensures r.None? <==> 0 <= a <= old(amount)
      ensures r.Some? ==> r == Some(ValueError) && amount == old(amount) && history == old(history)
      ensures r.None? ==>
        && amount == old(amount) - a
        && history == old(history) + [HistoryEntry(date, transactionId, WithdrawEntry, a)]
    {
      if a < 0 {
        return Some(ValueError);
      }
      if a > amount {
        return Some(ValueError);
      }
      var entry := HistoryEntry(date, transactionId, WithdrawEntry, a);
      NetAppend(history, entry);
      amount := amount - a;
      history := history + [entry];
      r := None;
    }
  }

  /** The account tests: open, deposit `d` under id "1", then withdraw `w`
      under id "2" at the same time stamp. */
  method DepositThenWithdraw(opening: int, d: int, w: int, date: string)
    returns (acc: Account, deposited: Option<ObjectError>, withdrawn: Option<ObjectError>)
    requires opening >= 0 && d >= 0 && w >= 0
    ensures deposited.None?
    ensures withdrawn.None? <==> w <= opening + d
    ensures withdrawn.Some? ==> withdrawn == Some(ValueError)
    ensures acc.amount == if w <= opening + d then opening + d - w else opening + d
    ensures acc.history == [HistoryEntry(date, "1", DepositEntry, d)]
                           + (if w <= opening + d then [HistoryEntry(date, "2", WithdrawEntry, w)] else [])
  {
    acc := new Account("default test account", "checking", opening);
    deposited := acc.Deposit(d, "1", date);
    withdrawn := acc.Withdraw(w, "2", date);
  }

  /** The budget constructor rejects a negative amount only. */
  function CheckBudget(amount: int): (r: Option<ObjectError>)
    ensures r.None? <==> amount >= 0
    ensures r.Some? ==> r.value == ValueError
  {
    if amount < 0 then Some(ValueError) else None
  }

  class Budget {
    var name: string
    var month: string
    var amount: int

    constructor (name: string, month: string, amount: int)
      requires CheckBudget(amount).None?
      ensures this.name == name && this.month == month && this.amount == amount
    {
      this.name, this.month, this.amount := name, month, amount;
    }

    /** `Budget(name, month, amount)`, raising on a negative amount. */
    static method New(name: string, month: string, amount: int) returns (r: Result<Budget, ObjectError>)
      ensures r.Ok? <==> amount >= 0
      ensures r.Err? ==> r.error == ValueError
      ensures r.Ok? ==> fresh(r.value) && r.value.name == name && r.value.month == month && r.value.amount == amount
    {
      var failure := CheckBudget(amount);
      if failure.Some? {
        return Err(failure.value);
      }
      var budget := new Budget(name, month, amount);
      r := Ok(budget);
    }

    /** `add_amount`: the budget rises by `a`. */
    method AddAmount(a: int)
      modifies this
      ensures amount == old(amount) + a
      ensures name == old(name) && month == old(month)
    {
      amount := amount + a;
    }

    /** `withdraw_amount`: more than the budget raises; otherwise the budget
        falls by `a`, and a non-negative budget stays non-negative. */
    method WithdrawAmount(a: int, transactionId: string) returns (r: Option<ObjectError>)
      modifies this
      ensures r.None? <==> a <= old(amount)
      ensures r.Some? ==> r == Some(ValueError) && amount == old(amount)
      ensures r.None? ==> amount == old(amount) - a && amount >= 0
      ensures name == old(name) && month == old(month)
    {
      if a > amount {
        return Some(ValueError);
      }
      amount := amount - a;
      r := None;
    }
  }

  /** A Transaction object; it is never modified after construction. */
  datatype TransactionObject = TransactionObject(
    date: Option<string>, kind: string, amount: int, budget: Option<string>,
    origin: Option<string>, destination: Option<string>)

  /** `Transaction(...)`: an unknown type raises TypeError, then a negative
      amount raises ValueError; otherwise every field is kept as given. */
  function NewTransaction(date: Option<string>, kind: string, amount: int, budget: Option<string>,
                          origin: Option<string>, destination: Option<string>): (r: Result<TransactionObject, ObjectError>)
    ensures r.Ok? <==> kind in AvailableTransactionTypes && amount >= 0
    ensures kind !in AvailableTransactionTypes ==> r == Err(TypeError)
    ensures kind in AvailableTransactionTypes && amount < 0 ==> r == Err(ValueError)
    ensures r.Ok? ==>
      && r.value.date == date && r.value.kind == kind && r.value.amount == amount
      && r.value.budget == budget && r.value.origin == origin && r.value.destination == destination
  {
    if kind !in AvailableTransactionTypes then Err(TypeError)
    else if amount < 0 then Err(ValueError)
    else Ok(TransactionObject(date, kind, amount, budget, origin, destination))
  }
}
