/** The three PostgreSQL tables the API writes to, each an ordered sequence of
    rows (the order in which `SELECT *` returns them), and the effect of every
    statement the connector can run on them. */
module SqlTables {
  import opened Base

  datatype AccountRow = AccountRow(id: string, name: string, kind: string, balance: int, owner: string)

  datatype BudgetRow = BudgetRow(id: string, name: string, month: string, amount: int)

  datatype TransactionRow = TransactionRow(
    id: string, date: string, kind: string, amount: int,
    origin: Option<string>, destination: Option<string>, budget: Option<string>,
    category: string, recipient: string, description: string)

  datatype Tables = Tables(accounts: seq<AccountRow>, budgets: seq<BudgetRow>, transactions: seq<TransactionRow>)

  /** A query argument as the driver receives it: a string, a number, or `None`. */
  datatype Param = Text(s: string) | Num(n: int) | Null

  /** The argument for an optional string column. */
  function OptionalText(o: Option<string>): (p: Param)
    ensures o.None? <==> p == Null
    ensures o.Some? ==> p == Text(o.value)
  {
    if o.Some? then Text(o.value) else Null
  }

  // ---------------------------------------------------------------------
  // UPDATE accounts SET balance = CASE WHEN name = $minus THEN balance - m
  //                                   WHEN name = $plus  THEN balance + p
  //                                   ELSE balance END
  // A comparison with NULL is never true, so an absent name matches no row.
  // ---------------------------------------------------------------------

  function AdjustRow(r: AccountRow, minus: Option<string>, m: int, plus: Option<string>, p: int): AccountRow
  {
    if minus == Some(r.name) then r.(balance := r.balance - m)
    else if plus == Some(r.name) then r.(balance := r.balance + p)
    else r
  }

  function Adjust(rows: seq<AccountRow>, minus: Option<string>, m: int, plus: Option<string>, p: int): (r: seq<AccountRow>)
    ensures |r| == |rows|
  {
    if rows == [] then [] else [AdjustRow(rows[0], minus, m, plus, p)] + Adjust(rows[1..], minus, m, plus, p)
  }

  /** Row `i` after the update: the row named `minus` loses `m`, otherwise the
      row named `plus` gains `p`, every other row is unchanged, and no column
      but the balance ever changes. */
  lemma {:induction false} AdjustAt(rows: seq<AccountRow>, minus: Option<string>, m: int, plus: Option<string>, p: int, i: int)
    requires 0 <= i < |rows|
    ensures var r := Adjust(rows, minus, m, plus, p)[i];
      && r.id == rows[i].id && r.name == rows[i].name && r.kind == rows[i].kind && r.owner == rows[i].owner
      && (minus == Some(rows[i].name) ==> r.balance == rows[i].balance - m)
      && (minus != Some(rows[i].name) && plus == Some(rows[i].name) ==> r.balance == rows[i].balance + p)
      && (minus != Some(rows[i].name) && plus != Some(rows[i].name) ==> r == rows[i])
  {
    if i > 0 {
      AdjustAt(rows[1..], minus, m, plus, p, i - 1);
      assert rows[1..][i - 1] == rows[i];
    }
  }

  /** Sum of all balances. */
  function Total(rows: seq<AccountRow>): int
  {
    if rows == [] then 0 else rows[0].balance + Total(rows[1..])
  }

  /** Number of rows carrying a name. */
  function Count(rows: seq<AccountRow>, name: string): nat
  {
    if rows == [] then 0 else (if rows[0].name == name then 1 else 0) + Count(rows[1..], name)
  }

  /** A transfer between two distinct names moves `a` per row of the
      destination in and `a` per row of the origin out. */
  lemma {:induction false} AdjustTotal(rows: seq<AccountRow>, o: string, d: string, a: int)
    requires o != d
    ensures Total(Adjust(rows, Some(o), a, Some(d), a)) == Total(rows) + a * (Count(rows, d) - Count(rows, o))
  {
    if rows != [] {
      AdjustTotal(rows[1..], o, d, a);
      var cd: int, co: int := Count(rows[1..], d), Count(rows[1..], o);
      if rows[0].name == o {
        assert a * (cd - (co + 1)) == a * (cd - co) - a;
      } else if rows[0].name == d {
        assert a * ((cd + 1) - co) == a * (cd - co) + a;
      }
    }
  }

  /** With one row per name (names are unique on creation), a transfer between
      two distinct accounts conserves the total. */
  lemma TransferConservesTotal(rows: seq<AccountRow>, o: string, d: string, a: int)
    requires o != d && Count(rows, o) == 1 && Count(rows, d) == 1
    ensures Total(Adjust(rows, Some(o), a, Some(d), a)) == Total(rows)
  {
    AdjustTotal(rows, o, d, a);
  }

  /** Re-running the statement with both amounts negated undoes it. */
  lemma {:induction false} AdjustUndo(rows: seq<AccountRow>, minus: Option<string>, m: int, plus: Option<string>, p: int)
    ensures Adjust(Adjust(rows, minus, m, plus, p), minus, -m, plus, -p) == rows
  {
    if rows != [] {
      AdjustUndo(rows[1..], minus, m, plus, p);
      var once := Adjust(rows, minus, m, plus, p);
      assert once[1..] == Adjust(rows[1..], minus, m, plus, p);
    }
  }

  // ---------------------------------------------------------------------
  // UPDATE budgets SET amount = amount - $1 WHERE id = $2
  // ---------------------------------------------------------------------

  function ChargeRow(r: BudgetRow, id: Option<string>, a: int): BudgetRow
  {
    if id == Some(r.id) then r.(amount := r.amount - a) else r
  }

  function Charge(rows: seq<BudgetRow>, id: Option<string>, a: int): (r: seq<BudgetRow>)
    ensures |r| == |rows|
  {
    if rows == [] then [] else [ChargeRow(rows[0], id, a)] + Charge(rows[1..], id, a)
  }

  /** Row `i` after the update: it loses `a` exactly when it carries the id,
      and nothing but its amount ever changes. */
  lemma {:induction false} ChargeAt(rows: seq<BudgetRow>, id: Option<string>, a: int, i: int)
    requires 0 <= i < |rows|
    ensures var r := Charge(rows, id, a)[i];
      && r.id == rows[i].id && r.name == rows[i].name && r.month == rows[i].month
      && (id == Some(rows[i].id) ==> r.amount == rows[i].amount - a)
      && (id != Some(rows[i].id) ==> r == rows[i])
  {
    if i > 0 {
      ChargeAt(rows[1..], id, a, i - 1);
      assert rows[1..][i - 1] == rows[i];
    }
  }

  lemma {:induction false} ChargeUndo(rows: seq<BudgetRow>, id: Option<string>, a: int)
    ensures Charge(Charge(rows, id, a), id, -a) == rows
  {
    if rows != [] {
      ChargeUndo(rows[1..], id, a);
      var once := Charge(rows, id, a);
      assert once[1..] == Charge(rows[1..], id, a);
    }
  }

  // ---------------------------------------------------------------------
  // DELETE FROM <table> WHERE id = $1
  // ---------------------------------------------------------------------

  /** The rows that satisfy `keep`, in their order. */
  function Keep<T>(s: seq<T>, keep: T -> bool): (r: seq<T>)
    ensures |r| <= |s|
  {
    if s == [] then [] else (if keep(s[0]) then [s[0]] else []) + Keep(s[1..], keep)
  }

  /** Exactly the rows of `s` that satisfy `keep` survive. */
  lemma {:induction false} KeepMembers<T>(s: seq<T>, keep: T -> bool)
    ensures forall x :: x in Keep(s, keep) <==> x in s && keep(x)
  {
    if s != [] {
      KeepMembers(s[1..], keep);
      assert s == [s[0]] + s[1..];
    }
  }

  lemma {:induction false} KeepAll<T>(s: seq<T>, keep: T -> bool)
    requires forall i :: 0 <= i < |s| ==> keep(s[i])
    ensures Keep(s, keep) == s
  {
    if s != [] {
      KeepAll(s[1..], keep);
    }
  }

  lemma {:induction false} KeepAppend<T>(s: seq<T>, x: T, keep: T -> bool)
    ensures Keep(s + [x], keep) == Keep(s, keep) + (if keep(x) then [x] else [])
  {
    if s == [] {
      assert s + [x] == [x];
      assert Keep([x], keep) == (if keep(x) then [x] else []) + Keep([], keep);
    } else {
      var head := if keep(s[0]) then [s[0]] else [];
      var tail := if keep(x) then [x] else [];
      assert (s + [x])[0] == s[0];
      assert (s + [x])[1..] == s[1..] + [x];
      KeepAppend(s[1..], x, keep);
      calc {
        Keep(s + [x], keep);
        head + Keep(s[1..] + [x], keep);
        head + (Keep(s[1..], keep) + tail);
        (head + Keep(s[1..], keep)) + tail;
        Keep(s, keep) + tail;
      }
    }
  }

  function DeleteAccounts(rows: seq<AccountRow>, id: Option<string>): seq<AccountRow>
  {
    Keep(rows, (r: AccountRow) => id != Some(r.id))
  }

  function DeleteBudgets(rows: seq<BudgetRow>, id: Option<string>): seq<BudgetRow>
  {
    Keep(rows, (r: BudgetRow) => id != Some(r.id))
  }

  function DeleteTransactions(rows: seq<TransactionRow>, id: Option<string>): seq<TransactionRow>
  {
    Keep(rows, (r: TransactionRow) => id != Some(r.id))
  }

  // ---------------------------------------------------------------------
  // Primary keys and the lookup of a transaction by id
  // ---------------------------------------------------------------------

  predicate HasAccountId(rows: seq<AccountRow>, id: string)
  {
    exists i :: 0 <= i < |rows| && rows[i].id == id
  }

  predicate HasBudgetId(rows: seq<BudgetRow>, id: string)
  {
    exists i :: 0 <= i < |rows| && rows[i].id == id
  }

  predicate HasTransactionId(rows: seq<TransactionRow>, id: string)
  {
    exists i :: 0 <= i < |rows| && rows[i].id == id
  }

  /** `SELECT * FROM transactions WHERE id=$1`, first row of the result. */
  function FindTransaction(rows: seq<TransactionRow>, id: string): (r: Option<TransactionRow>)
    ensures r.Some? ==> r.value in rows && r.value.id == id
    ensures r.None? <==> !HasTransactionId(rows, id)
  {
    if rows == [] then None
    else if rows[0].id == id then Some(rows[0])
    else
      var r := FindTransaction(rows[1..], id);
      assert HasTransactionId(rows[1..], id) ==> HasTransactionId(rows, id) by {
        if HasTransactionId(rows[1..], id) {
          var i :| 0 <= i < |rows[1..]| && rows[1..][i].id == id;
          assert rows[i + 1].id == id;
        }
      }
      r
  }

  /** A freshly appended row is what the lookup by its id finds. */
  lemma {:induction false} FindAppended(rows: seq<TransactionRow>, row: TransactionRow)
    requires !HasTransactionId(rows, row.id)
    ensures FindTransaction(rows + [row], row.id) == Some(row)
  {
    if rows == [] {
      assert rows + [row] == [row];
    } else {
      assert rows[0].id != row.id;
      assert (rows + [row])[1..] == rows[1..] + [row];
      forall i | 0 <= i < |rows[1..]|
        ensures rows[1..][i].id != row.id
      {
        assert rows[1..][i] == rows[i + 1];
      }
      FindAppended(rows[1..], row);
    }
  }

  /** Deleting the id of a freshly appended row gives back the old table. */
  lemma DeleteAppended(rows: seq<TransactionRow>, row: TransactionRow)
    requires !HasTransactionId(rows, row.id)
    ensures DeleteTransactions(rows + [row], Some(row.id)) == rows
  {
    var keep := (r: TransactionRow) => Some(row.id) != Some(r.id);
    KeepAppend(rows, row, keep);
    KeepAll(rows, keep);
  }

  // ---------------------------------------------------------------------
  // Statements and their effect
  // ---------------------------------------------------------------------

  /** Every statement text the connector can send. */
  datatype Statement =
    | InsertAccount | DeleteAccount
    | InsertBudget | DeleteBudget
    | InsertTransaction | DeleteTransaction
    | ChargeBudget
    | UpdateAccounts      // the generic CASE over $1..$4
    | CreditAccount       // balance + $1 WHERE name = $2
    | DebitAccount        // balance - $1 WHERE name = $2
    | TransferAccounts    // CASE over $1, $2 with amount $3

  /** Number of placeholders in the statement text. */
  function Arity(st: Statement): nat
  {
    match st
    case InsertAccount => 5
    case InsertBudget => 4
    case InsertTransaction => 10
    case DeleteAccount | DeleteBudget | DeleteTransaction => 1
    case ChargeBudget | CreditAccount | DebitAccount => 2
    case TransferAccounts => 3
    case UpdateAccounts => 4
  }

  /** An argument compared with a text column: a string or NULL. */
  predicate IsName(p: Param) { !p.Num? }

  function NameArg(p: Param): Option<string>
  {
    if p.Text? then Some(p.s) else None
  }

  /** A statement with an argument of the wrong shape, the wrong number of
      arguments or a duplicate primary key raises inside the database
      transaction; the caller then sees no change (`None`). */
  function Exec(t: Tables, st: Statement, ps: seq<Param>): (r: Option<Tables>)
    ensures r.Some? ==> |ps| == Arity(st)
    ensures r.Some? && st in {InsertAccount, DeleteAccount, UpdateAccounts, CreditAccount, DebitAccount, TransferAccounts} ==>
      r.value.budgets == t.budgets && r.value.transactions == t.transactions
    ensures r.Some? && st in {InsertBudget, DeleteBudget, ChargeBudget} ==>
      r.value.accounts == t.accounts && r.value.transactions == t.transactions
    ensures r.Some? && st in {InsertTransaction, DeleteTransaction} ==>
      r.value.accounts == t.accounts && r.value.budgets == t.budgets
  {
    if |ps| != Arity(st) then None
    else
      match st
      case InsertAccount =>
        if ps[0].Text? && ps[1].Text? && ps[2].Text? && ps[3].Num? && ps[4].Text? && !HasAccountId(t.accounts, ps[0].s)
        then Some(t.(accounts := t.accounts + [AccountRow(ps[0].s, ps[1].s, ps[2].s, ps[3].n, ps[4].s)]))
        else None
      case DeleteAccount =>
        if IsName(ps[0]) then Some(t.(accounts := DeleteAccounts(t.accounts, NameArg(ps[0])))) else None
      case InsertBudget =>
        if ps[0].Text? && ps[1].Text? && ps[2].Text? && ps[3].Num? && !HasBudgetId(t.budgets, ps[0].s)
        then Some(t.(budgets := t.budgets + [BudgetRow(ps[0].s, ps[1].s, ps[2].s, ps[3].n)]))
        else None
      case DeleteBudget =>
        if IsName(ps[0]) then Some(t.(budgets := DeleteBudgets(t.budgets, NameArg(ps[0])))) else None
      case InsertTransaction =>
        if ps[0].Text? && ps[1].Text? && ps[2].Text? && ps[3].Num? && IsName(ps[4]) && IsName(ps[5]) && IsName(ps[6])
           && ps[7].Text? && ps[8].Text? && ps[9].Text? && !HasTransactionId(t.transactions, ps[0].s)
        then
          var row := TransactionRow(ps[0].s, ps[1].s, ps[2].s, ps[3].n, NameArg(ps[4]), NameArg(ps[5]), NameArg(ps[6]),
                                    ps[7].s, ps[8].s, ps[9].s);
          Some(t.(transactions := t.transactions + [row]))
        else None
      case DeleteTransaction =>
        if IsName(ps[0]) then Some(t.(transactions := DeleteTransactions(t.transactions, NameArg(ps[0])))) else None
      case ChargeBudget =>
        if ps[0].Num? && IsName(ps[1]) then Some(t.(budgets := Charge(t.budgets, NameArg(ps[1]), ps[0].n))) else None
      case UpdateAccounts =>
        if IsName(ps[0]) && ps[1].Num? && IsName(ps[2]) && ps[3].Num?
        then Some(t.(accounts := Adjust(t.accounts, NameArg(ps[0]), ps[1].n, NameArg(ps[2]), ps[3].n)))
        else None
      case CreditAccount =>
        if ps[0].Num? && IsName(ps[1]) then Some(t.(accounts := Adjust(t.accounts, None, 0, NameArg(ps[1]), ps[0].n))) else None
      case DebitAccount =>
        if ps[0].Num? && IsName(ps[1]) then Some(t.(accounts := Adjust(t.accounts, NameArg(ps[1]), ps[0].n, None, 0))) else None
      case TransferAccounts =>
        if IsName(ps[0]) && IsName(ps[1]) && ps[2].Num?
        then Some(t.(accounts := Adjust(t.accounts, NameArg(ps[0]), ps[2].n, NameArg(ps[1]), ps[2].n)))
        else None
  }
}
