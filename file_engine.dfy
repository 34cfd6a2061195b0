/** The file-backed bookkeeping engine: a name-keyed account table, a budget
    table keyed by (name, month), and the debit / credit / transfer routines
    that mutate loaded copies of their records and write them back. */
module FileEngine {
  import opened Base

  /** An entry of the account table (amounts in cents). */
  datatype AccountRecord = AccountRecord(name: string, kind: string, amount: int)

  /** A budget row of the current month. */
  datatype BudgetRecord = BudgetRecord(name: string, month: string, amount: int)

  /** The record `generate_transaction` builds. */
  datatype Transaction = Transaction(
    id: string, date: string, kind: string,
    origin: Option<string>, destination: Option<string>,
    amount: int, budget: Option<string>)

  /** The two tables on disk. */
  datatype Store = Store(accounts: map<string, AccountRecord>, budgets: map<(string, string), BudgetRecord>)

  /** The exceptions the engine raises. */
  datatype EngineError =
    | InvalidTransactionType          // ValueError("Invalid transaction type")
    | AccountNotFound                 // ValueError("Account not found")
    | BudgetNotFound                  // ValueError("Budget not found")
    | OriginRequired                  // ValueError("Origin account is required ...")
    | DestinationRequired             // ValueError("Destination account is required ...")
    | NotSubscriptable                // TypeError: indexing a missing budget record
    | MissingKey(key: string)         // KeyError

  /** The types `generate_transaction` accepts. */
  const AllowedTypes: seq<string> := [DebitKind, CreditKind, TransferKind]

  /** Every account is stored under its own name, which is how
      `save_account_changes` writes it. */
  predicate WellKeyed(s: Store)
  {
    forall k :: k in s.accounts ==> s.accounts[k].name == k
  }

  // ---------------------------------------------------------------------
  // Records and the account table
  // ---------------------------------------------------------------------

  /** `generate_transaction`; the generated id and the current time are parameters. */
  function GenerateTransaction(date: Option<string>, kind: string, origin: Option<string>, destination: Option<string>,
                               amount: int, budget: Option<string>, now: string, id: string): (r: Result<Transaction, EngineError>)
    ensures r.Ok? <==> kind in AllowedTypes
    ensures r.Err? ==> r.error == InvalidTransactionType
    ensures r.Ok? ==>
      && r.value.kind == kind && r.value.origin == origin && r.value.destination == destination
      && r.value.amount == amount && r.value.budget == budget && r.value.id == id
      && r.value.date == (if date.None? then now else date.value)
  {
    if kind !in AllowedTypes then Err(InvalidTransactionType)
    else
      var stamp := if date.None? then now else date.value;
      Ok(Transaction(id, stamp, kind, origin, destination, amount, budget))
  }

  /** `load_specific_account`. */
  function LoadAccount(s: Store, name: string): (r: Result<AccountRecord, EngineError>)
    ensures r.Ok? <==> name in s.accounts
    ensures r.Ok? ==> r.value == s.accounts[name]
    ensures r.Err? ==> r.error == AccountNotFound
  {
    if name !in s.accounts then Err(AccountNotFound) else Ok(s.accounts[name])
  }

  /** The budget of `name` for `month`. */
  function LoadBudget(s: Store, name: string, month: string): (r: Result<BudgetRecord, EngineError>)
    ensures r.Ok? <==> (name, month) in s.budgets
    ensures r.Ok? ==> r.value == s.budgets[(name, month)]
    ensures r.Err? ==> r.error == BudgetNotFound
  {
    if (name, month) !in s.budgets then Err(BudgetNotFound) else Ok(s.budgets[(name, month)])
  }

  /** `save_account_changes`: the entry keyed by the account's own name is
      replaced (or added); every other entry and the budgets stay. */
  function SaveAccount(s: Store, account: AccountRecord): (r: Store)
    ensures account.name in r.accounts && r.accounts[account.name] == account
    ensures r.accounts.Keys == s.accounts.Keys + {account.name}
    ensures forall k :: k in s.accounts && k != account.name ==> r.accounts[k] == s.accounts[k]
    ensures r.budgets == s.budgets
    ensures WellKeyed(s) ==> WellKeyed(r)
  {
    s.(accounts := s.accounts[account.name := account])
  }

  /** `save_budget_change`: the row of (`name`, `month`) is replaced. */
  function SaveBudget(s: Store, budget: BudgetRecord, name: string, month: string): (r: Store)
    ensures (name, month) in r.budgets && r.budgets[(name, month)] == budget
    ensures r.budgets.Keys == s.budgets.Keys + {(name, month)}
    ensures forall k :: k in s.budgets && k != (name, month) ==> r.budgets[k] == s.budgets[k]
    ensures r.accounts == s.accounts
  {
    s.(budgets := s.budgets[(name, month) := budget])
  }

  // ---------------------------------------------------------------------
  // The three transaction routines, on loaded copies
  // ---------------------------------------------------------------------

  /** `debit_transaction`: no insufficient-funds check; the budget is touched
      exactly when the transaction names one. */
  function Debit(s: Store, tx: Transaction, origin: Option<AccountRecord>, budget: Option<BudgetRecord>, month: string): (r: (Option<EngineError>, Store))
    ensures origin.None? ==> r == (Some(OriginRequired), s)
    ensures origin.Some? ==>
      && r.1.accounts == s.accounts[origin.value.name := origin.value.(amount := origin.value.amount - tx.amount)]
      && (tx.budget.None? ==> r == (None, r.1) && r.1.budgets == s.budgets)
      && (tx.budget.Some? && budget.Some? ==>
            r.0.None? && r.1.budgets == s.budgets[(tx.budget.value, month) := budget.value.(amount := budget.value.amount - tx.amount)])
      && (tx.budget.Some? && budget.None? ==> r.0 == Some(NotSubscriptable) && r.1.budgets == s.budgets)
  {
    if origin.None? then (Some(OriginRequired), s)
    else
      var o := origin.value;
      var s1 := SaveAccount(s, o.(amount := o.amount - tx.amount));
      if tx.budget.None? then (None, s1)
      else if budget.None? then (Some(NotSubscriptable), s1)
      else
        var b := budget.value;
        (None, SaveBudget(s1, b.(amount := b.amount - tx.amount), tx.budget.value, month))
  }

  /** `credit_transaction`: the mirror image of the debit, adding. */
  function Credit(s: Store, tx: Transaction, destination: Option<AccountRecord>, budget: Option<BudgetRecord>, month: string): (r: (Option<EngineError>, Store))
    ensures destination.None? ==> r == (Some(DestinationRequired), s)
    ensures destination.Some? ==>
      && r.1.accounts == s.accounts[destination.value.name := destination.value.(amount := destination.value.amount + tx.amount)]
      && (tx.budget.None? ==> r == (None, r.1) && r.1.budgets == s.budgets)
      && (tx.budget.Some? && budget.Some? ==>
            r.0.None? && r.1.budgets == s.budgets[(tx.budget.value, month) := budget.value.(amount := budget.value.amount + tx.amount)])
      && (tx.budget.Some? && budget.None? ==> r.0 == Some(NotSubscriptable) && r.1.budgets == s.budgets)
  {
    if destination.None? then (Some(DestinationRequired), s)
    else
      var d := destination.value;
      var s1 := SaveAccount(s, d.(amount := d.amount + tx.amount));
      if tx.budget.None? then (None, s1)
      else if budget.None? then (Some(NotSubscriptable), s1)
      else
        var b := budget.value;
        (None, SaveBudget(s1, b.(amount := b.amount + tx.amount), tx.budget.value, month))
  }

  /** `transfert_transaction` as evidently intended: both records are checked
      before anything changes, the origin copy loses the amount, the
      destination copy gains it, and both are saved, origin first. */
  function Transfert(s: Store, tx: Transaction, origin: Option<AccountRecord>, destination: Option<AccountRecord>): (r: (Option<EngineError>, Store))
    ensures origin.None? ==> r == (Some(OriginRequired), s)
    ensures origin.Some? && destination.None? ==> r == (Some(DestinationRequired), s)
    ensures origin.Some? && destination.Some? ==>
      && r.0.None?
      && r.1.accounts == s.accounts[origin.value.name := origin.value.(amount := origin.value.amount - tx.amount)]
                                   [destination.value.name := destination.value.(amount := destination.value.amount + tx.amount)]
    ensures r.1.budgets == s.budgets
  {
    if origin.None? then (Some(OriginRequired), s)
    else if destination.None? then (Some(DestinationRequired), s)
    else
      var o := origin.value.(amount := origin.value.amount - tx.amount);
      var d := destination.value.(amount := destination.value.amount + tx.amount);
      (None, SaveAccount(SaveAccount(s, o), d))
  }

  /** `transfert_transaction` as written: after the checks, the origin is
      read under the key "amount " (with a trailing space), which no account
      record has, so a KeyError leaves before anything is saved. */
  function TransfertAsWritten(s: Store, tx: Transaction, origin: Option<AccountRecord>, destination: Option<AccountRecord>): (Option<EngineError>, Store)
  {
    if origin.None? then (Some(OriginRequired), s)
    else if destination.None? then (Some(DestinationRequired), s)
    else (Some(MissingKey("amount ")), s)
  }

  /** Between two distinct accounts the transfer moves the amount from one to
      the other, keeps their sum and leaves every other account alone. */
  lemma TransfertMoves(s: Store, tx: Transaction, o: AccountRecord, d: AccountRecord)
    requires o.name != d.name
    ensures var r := Transfert(s, tx, Some(o), Some(d));
      && r.0.None?
      && r.1.accounts[o.name].amount == o.amount - tx.amount
      && r.1.accounts[d.name].amount == d.amount + tx.amount
      && r.1.accounts[o.name].amount + r.1.accounts[d.name].amount == o.amount + d.amount
      && forall k :: k in s.accounts && k != o.name && k != d.name ==> r.1.accounts[k] == s.accounts[k]
  {
  }

  /** As written, a transfer between two loaded accounts never moves money. */
  lemma TransfertMovesNothingAsWritten(s: Store, tx: Transaction, o: AccountRecord, d: AccountRecord)
    ensures TransfertAsWritten(s, tx, Some(o), Some(d)) == (Some(MissingKey("amount ")), s)
    ensures Transfert(s, tx, Some(o), Some(d)).0.None?
  {
  }

  /** The two copies of a self-transfer are loaded separately, and the
      destination copy is saved last: the account ends up credited. */
  lemma SelfTransfertCredits(s: Store, tx: Transaction, a: AccountRecord)
    ensures Transfert(s, tx, Some(a), Some(a)).1.accounts[a.name].amount == a.amount + tx.amount
  {
  }

  // ---------------------------------------------------------------------
  // apply_transaction
  // ---------------------------------------------------------------------

  /** Load the record named by an optional field, or nothing. */
  function LoadIfNamed(s: Store, name: Option<string>): Result<Option<AccountRecord>, EngineError>
  {
    if name.None? then Ok(None)
    else match LoadAccount(s, name.value)
      case Err(e) => Err(e)
      case Ok(a) => Ok(Some(a))
  }

  /** `apply_transaction`: load the budget (of the current month), then the
      origin, then the destination, each only when named; send "debit" to
      the debit routine, "credit" to the credit routine and every other type
      to the transfer routine; return the transaction itself. */
  function Apply(s: Store, tx: Transaction, month: string): (r: (Result<Transaction, EngineError>, Store))
    ensures r.0.Ok? ==> r.0.value == tx
    ensures r.0.Err? ==> r.1 == s
    ensures r.0.Ok? <==>
      && (tx.budget.Some? ==> (tx.budget.value, month) in s.budgets)
      && (tx.origin.Some? ==> tx.origin.value in s.accounts)
      && (tx.destination.Some? ==> tx.destination.value in s.accounts)
      && (tx.kind == DebitKind ==> tx.origin.Some?)
      && (tx.kind == CreditKind ==> tx.destination.Some?)
      && (tx.kind != DebitKind && tx.kind != CreditKind ==> tx.origin.Some? && tx.destination.Some?)
    ensures tx.budget.Some? && (tx.budget.value, month) !in s.budgets ==> r.0 == Err(BudgetNotFound)
  {
    var budget :=
      if tx.budget.None? then Ok(None)
      else match LoadBudget(s, tx.budget.value, month)
        case Err(e) => Err(e)
        case Ok(b) => Ok(Some(b));
    if budget.Err? then (Err(budget.error), s)
    else
      var origin := LoadIfNamed(s, tx.origin);
      if origin.Err? then (Err(origin.error), s)
      else
        var destination := LoadIfNamed(s, tx.destination);
        if destination.Err? then (Err(destination.error), s)
        else
          var outcome :=
            if tx.kind == DebitKind then Debit(s, tx, origin.value, budget.value, month)
            else if tx.kind == CreditKind then Credit(s, tx, destination.value, budget.value, month)
            else Transfert(s, tx, origin.value, destination.value);
          if outcome.0.Some? then (Err(outcome.0.value), outcome.1) else (Ok(tx), outcome.1)
  }

  /** A debit only lowers the origin, by exactly the amount, and touches the
      budget exactly when the transaction names one. */
  lemma ApplyDebit(s: Store, tx: Transaction, month: string)
    requires WellKeyed(s) && tx.kind == DebitKind
    requires tx.origin.Some? && tx.origin.value in s.accounts
    requires tx.destination.Some? ==> tx.destination.value in s.accounts
    requires tx.budget.Some? ==> (tx.budget.value, month) in s.budgets
    ensures var r := Apply(s, tx, month).1;
      && r.accounts.Keys == s.accounts.Keys
      && r.accounts[tx.origin.value].amount == s.accounts[tx.origin.value].amount - tx.amount
      && (forall k :: k in s.accounts && k != tx.origin.value ==> r.accounts[k] == s.accounts[k])
      && (tx.budget.None? ==> r.budgets == s.budgets)
      && (tx.budget.Some? ==> r.budgets[(tx.budget.value, month)].amount == s.budgets[(tx.budget.value, month)].amount - tx.amount)
  {
  }

  /** A credit only raises the destination, by exactly the amount; its
      budget rises too. */
  lemma ApplyCredit(s: Store, tx: Transaction, month: string)
    requires WellKeyed(s) && tx.kind == CreditKind
    requires tx.destination.Some? && tx.destination.value in s.accounts
    requires tx.origin.Some? ==> tx.origin.value in s.accounts
    requires tx.budget.Some? ==> (tx.budget.value, month) in s.budgets
    ensures var r := Apply(s, tx, month).1;
      && r.accounts.Keys == s.accounts.Keys
      && r.accounts[tx.destination.value].amount == s.accounts[tx.destination.value].amount + tx.amount
      && (forall k :: k in s.accounts && k != tx.destination.value ==> r.accounts[k] == s.accounts[k])
      && (tx.budget.None? ==> r.budgets == s.budgets)
      && (tx.budget.Some? ==> r.budgets[(tx.budget.value, month)].amount == s.budgets[(tx.budget.value, month)].amount + tx.amount)
  {
  }

  /** A debit followed by a credit of the same amount to the same account,
      with the same budget, restores both tables. */
  lemma DebitThenCreditRestores(s: Store, name: string, amount: int, budget: Option<string>, month: string,
                                first: Transaction, second: Transaction)
    requires WellKeyed(s) && name in s.accounts
    requires budget.Some? ==> (budget.value, month) in s.budgets
    requires first.kind == DebitKind && first.origin == Some(name) && first.destination == None
    requires second.kind == CreditKind && second.origin == None && second.destination == Some(name)
    requires first.amount == amount && second.amount == amount
    requires first.budget == budget && second.budget == budget
    ensures Apply(s, first, month).0 == Ok(first)
    ensures Apply(Apply(s, first, month).1, second, month) == (Ok(second), s)
  {
    var a := s.accounts[name];
    var s1 := Apply(s, first, month).1;
    assert s1.accounts == s.accounts[name := a.(amount := a.amount - amount)];
    var s2 := Apply(s1, second, month).1;
    assert s2.accounts == s.accounts;
    if budget.Some? {
      var k := (budget.value, month);
      var b := s.budgets[k];
      assert s1.budgets == s.budgets[k := b.(amount := b.amount - amount)];
      assert s2.budgets == s.budgets;
    }
  }

  /** The scenario of the unit tests: a 100.00 checking account, a debit of
      50.00 and then a credit of 50.00, generated without a budget. */
  lemma DebitCreditScenario(now: string, month: string, id1: string, id2: string)
    ensures var name := "default account";
      var s := Store(map[name := AccountRecord(name, "checking", 10000)], map[]);
      var first := GenerateTransaction(Some(now), DebitKind, Some(name), None, 5000, None, now, id1);
      var second := GenerateTransaction(Some(now), CreditKind, None, Some(name), 5000, None, now, id2);
      && first.Ok? && second.Ok?
      && Apply(s, first.value, month).1.accounts[name].amount == 5000
      && Apply(Apply(s, first.value, month).1, second.value, month).1.accounts[name].amount == 10000
  {
    var name := "default account";
    var s := Store(map[name := AccountRecord(name, "checking", 10000)], map[]);
    var first := GenerateTransaction(Some(now), DebitKind, Some(name), None, 5000, None, now, id1);
    var second := GenerateTransaction(Some(now), CreditKind, None, Some(name), 5000, None, now, id2);
    DebitThenCreditRestores(s, name, 5000, None, month, first.value, second.value);
  }

  // ---------------------------------------------------------------------
  // The engine over its two files
  // ---------------------------------------------------------------------

  class FileStore {
    var accounts: map<string, AccountRecord>
    var budgets: map<(string, string), BudgetRecord>

    function Snapshot(): Store
      reads this
    {
      Store(accounts, budgets)
    }

    constructor (s: Store)
      ensures Snapshot() == s
    {
      accounts, budgets := s.accounts, s.budgets;
    }

    method LoadSpecificAccount(name: string) returns (r: Result<AccountRecord, EngineError>)
      ensures r == LoadAccount(Snapshot(), name)
    {
      var table := accounts;
      if name !in table {
        return Err(AccountNotFound);
      }
      r := Ok(table[name]);
    }

    method SaveAccountChanges(account: AccountRecord)
      modifies this
      ensures Snapshot() == SaveAccount(old(Snapshot()), account)
    {
      var table := accounts;
      table := table[account.name := account];
      accounts := table;
    }

    method SaveBudgetChange(budget: BudgetRecord, name: string, month: string)
      modifies this
      ensures Snapshot() == SaveBudget(old(Snapshot()), budget, name, month)
    {
      budgets := budgets[(name, month) := budget];
    }

    method DebitTransaction(tx: Transaction, origin: Option<AccountRecord>, budget: Option<BudgetRecord>, month: string)
      returns (raised: Option<EngineError>)
      modifies this
      ensures (raised, Snapshot()) == Debit(old(Snapshot()), tx, origin, budget, month)
    {
      if origin.None? {
        return Some(OriginRequired);
      }
      var loaded := origin.value;
      loaded := loaded.(amount := loaded.amount - tx.amount);
      SaveAccountChanges(loaded);
      if tx.budget.Some? {
        if budget.None? {
          return Some(NotSubscriptable);
        }
        var b := budget.value;
        b := b.(amount := b.amount - tx.amount);
        SaveBudgetChange(b, tx.budget.value, month);
      }
      raised := None;
    }

    method CreditTransaction(tx: Transaction, destination: Option<AccountRecord>, budget: Option<BudgetRecord>, month: string)
      returns (raised: Option<EngineError>)
      modifies this
      ensures (raised, Snapshot()) == Credit(old(Snapshot()), tx, destination, budget, month)
    {
      if destination.None? {
        return Some(DestinationRequired);
      }
      var loaded := destination.value;
      loaded := loaded.(amount := loaded.amount + tx.amount);
      SaveAccountChanges(loaded);
      if tx.budget.Some? {
        if budget.None? {
          return Some(NotSubscriptable);
        }
        var b := budget.value;
        b := b.(amount := b.amount + tx.amount);
        SaveBudgetChange(b, tx.budget.value, month);
      }
      raised := None;
    }

    method TransfertTransaction(tx: Transaction, origin: Option<AccountRecord>, destination: Option<AccountRecord>)
      returns (raised: Option<EngineError>)
      modifies this
      ensures (raised, Snapshot()) == Transfert(old(Snapshot()), tx, origin, destination)
    {
      if origin.None? {
        return Some(OriginRequired);
      }
      if destination.None? {
        return Some(DestinationRequired);
      }
      var o := origin.value;
      o := o.(amount := o.amount - tx.amount);
      var d := destination.value;
      d := d.(amount := d.amount + tx.amount);
      SaveAccountChanges(o);
      SaveAccountChanges(d);
      raised := None;
    }

    method ApplyTransaction(tx: Transaction, month: string) returns (r: Result<Transaction, EngineError>)
      modifies this
      ensures (r, Snapshot()) == Apply(old(Snapshot()), tx, month)
    {
      var budget: Option<BudgetRecord> := None;
      if tx.budget.Some? {
        if (tx.budget.value, month) !in budgets {
          return Err(BudgetNotFound);
        }
        budget := Some(budgets[(tx.budget.value, month)]);
      }
      var origin: Option<AccountRecord> := None;
      if tx.origin.Some? {
        var loaded := LoadSpecificAccount(tx.origin.value);
        if loaded.Err? {
          return Err(loaded.error);
        }
        origin := Some(loaded.value);
      }
      var destination: Option<AccountRecord> := None;
      if tx.destination.Some? {
        var loaded := LoadSpecificAccount(tx.destination.value);
        if loaded.Err? {
          return Err(loaded.error);
        }
        destination := Some(loaded.value);
      }
      var raised: Option<EngineError>;
      if tx.kind == DebitKind {
        raised := DebitTransaction(tx, origin, budget, month);
      } else if tx.kind == CreditKind {
        raised := CreditTransaction(tx, destination, budget, month);
      } else {
        raised := TransfertTransaction(tx, origin, destination);
      }
      if raised.Some? {
        return Err(raised.value);
      }
      r := Ok(tx);
    }
  }
}
