/** The budget routes of the API: the listings that hide the `default`
    budget, the checks and the insert of budget creation, and budget
    deletion. */
module BudgetRouter {
  import opened Base
  import opened SqlTables
  import opened DbConnectors

  /** The name of the budget that unbudgeted transactions fall back to. */
  const DefaultBudgetName := "default"

  const NegativeBudgetDetail := "Budget balance must be positive"
  const BudgetExistsDetail := "Budget already exists"

  // ---------------------------------------------------------------------
  // Listings
  // ---------------------------------------------------------------------

  /** `app_get_available_budgets`: the names of the budgets, in table order,
      without those named exactly `default`. */
  function AvailableBudgets(rows: seq<BudgetRow>): (names: seq<string>)
    ensures |names| <= |rows|
  {
    if rows == [] then []
    else (if rows[0].name != DefaultBudgetName then [rows[0].name] else []) + AvailableBudgets(rows[1..])
  }

  /** `app_load_budget_table`: the budget rows without the `default` ones. */
  function BudgetTable(rows: seq<BudgetRow>): seq<BudgetRow>
  {
    Keep(rows, (r: BudgetRow) => r.name != DefaultBudgetName)
  }

  /** Some budget carries this name. */
  predicate NameIn(rows: seq<BudgetRow>, n: string)
  {
    exists i :: 0 <= i < |rows| && rows[i].name == n
  }

  /** A name is listed exactly when some budget carries it and it is not `default`. */
  lemma {:induction false} AvailableBudgetsMembers(rows: seq<BudgetRow>)
    ensures forall n :: n in AvailableBudgets(rows) <==> n != DefaultBudgetName && NameIn(rows, n)
  {
    if rows != [] {
      AvailableBudgetsMembers(rows[1..]);
      forall n
        ensures NameIn(rows, n) <==> rows[0].name == n || NameIn(rows[1..], n)
      {
        if NameIn(rows, n) {
          var i :| 0 <= i < |rows| && rows[i].name == n;
          if i > 0 {
            assert rows[1..][i - 1].name == n;
          }
        }
        if NameIn(rows[1..], n) {
          var i :| 0 <= i < |rows[1..]| && rows[1..][i].name == n;
          assert rows[i + 1].name == n;
        }
      }
    }
  }

  /** The table keeps exactly the rows not named `default`. */
  lemma BudgetTableMembers(rows: seq<BudgetRow>)
    ensures forall r :: r in BudgetTable(rows) <==> r in rows && r.name != DefaultBudgetName
  {
    KeepMembers(rows, (r: BudgetRow) => r.name != DefaultBudgetName);
  }

  // ---------------------------------------------------------------------
  // Creation
  // ---------------------------------------------------------------------

  /** Some budget already has this name for this month. */
  predicate BudgetExists(rows: seq<BudgetRow>, name: string, month: string)
  {
    exists i :: 0 <= i < |rows| && rows[i].name == name && rows[i].month == month
  }

  /** The checks of `app_create_budget`, in their order: a negative amount
      first (zero passes), then an existing (name, month) pair. */
  function CheckNewBudget(rows: seq<BudgetRow>, name: string, month: string, amount: int): (r: Option<HttpError>)
    ensures r.None? <==> amount >= 0 && !BudgetExists(rows, name, month)
    ensures amount < 0 ==> r == Some(BadRequest(NegativeBudgetDetail))
    ensures amount >= 0 && BudgetExists(rows, name, month) ==> r == Some(BadRequest(BudgetExistsDetail))
  {
    if amount < 0 then Some(BadRequest(NegativeBudgetDetail))
    else if BudgetExists(rows, name, month) then Some(BadRequest(BudgetExistsDetail))
    else None
  }

  /** The row the route inserts; `id` is the generated identifier. */
  function NewBudgetRow(name: string, month: string, amount: int, id: string): BudgetRow
  {
    BudgetRow(id, name, month, amount)
  }

  /** The `create_new_budget` insert appends the row unless its id is taken,
      in which case the statement fails and nothing changes. */
  lemma InsertBudgetEffect(t: Tables, row: BudgetRow)
    ensures InsertValues(t, CreateNewBudget, Items([Text(row.id), Text(row.name), Text(row.month), Num(row.amount)]))
         == (None, if HasBudgetId(t.budgets, row.id) then t else t.(budgets := t.budgets + [row]))
  {
    assert Arguments(Items([Text(row.id), Text(row.name), Text(row.month), Num(row.amount)]))
        == [Text(row.id), Text(row.name), Text(row.month), Num(row.amount)];
  }

  /** `app_create_budget`: the rejection, if any, and the tables after it. */
  function CreateBudgetEffect(t: Tables, name: string, month: string, amount: int, id: string): (Option<HttpError>, Tables)
  {
    match CheckNewBudget(t.budgets, name, month, amount)
    case Some(e) => (Some(e), t)
    case None =>
      var row := NewBudgetRow(name, month, amount, id);
      (None, if HasBudgetId(t.budgets, id) then t else t.(budgets := t.budgets + [row]))
  }

  /** A rejected creation changes nothing; an accepted one with a fresh id
      adds exactly one row, at the end, holding the given name, month and
      amount, so that the pair now exists. */
  lemma CreateBudgetAdds(t: Tables, name: string, month: string, amount: int, id: string)
    requires !HasBudgetId(t.budgets, id)
    ensures var r := CreateBudgetEffect(t, name, month, amount, id);
      && (r.0.Some? ==> r.1 == t)
      && (r.0.None? ==>
            && |r.1.budgets| == |t.budgets| + 1
            && r.1.budgets[..|t.budgets|] == t.budgets
            && r.1.budgets[|t.budgets|] == BudgetRow(id, name, month, amount)
            && BudgetExists(r.1.budgets, name, month)
            && r.1.accounts == t.accounts && r.1.transactions == t.transactions)
  {
    var r := CreateBudgetEffect(t, name, month, amount, id);
    if r.0.None? {
      assert r.1.budgets[|t.budgets|] == BudgetRow(id, name, month, amount);
    }
  }

  /** Once a (name, month) budget is created, creating it again is refused
      and leaves the tables as they are. */
  lemma CreateBudgetTwiceRejected(t: Tables, name: string, month: string, amount: int, again: int, id: string, id2: string)
    requires again >= 0 && !HasBudgetId(t.budgets, id)
    requires CreateBudgetEffect(t, name, month, amount, id).0.None?
    ensures var t1 := CreateBudgetEffect(t, name, month, amount, id).1;
      CreateBudgetEffect(t1, name, month, again, id2) == (Some(BadRequest(BudgetExistsDetail)), t1)
  {
    var t1 := CreateBudgetEffect(t, name, month, amount, id).1;
    assert t1.budgets[|t.budgets|] == BudgetRow(id, name, month, amount);
    assert BudgetExists(t1.budgets, name, month);
  }

  // ---------------------------------------------------------------------
  // Deletion
  // ---------------------------------------------------------------------

  /** The tables after `app_delete_budget`. */
  function DeleteBudgetTables(t: Tables, id: string): Tables
  {
    t.(budgets := DeleteBudgets(t.budgets, Some(id)))
  }

  /** The `delete_budget` statement, sent with the id as a lone string. */
  lemma DeleteBudgetEffect(t: Tables, id: string)
    ensures InsertValues(t, DeleteBudgetRequest, Str(id)) == (None, DeleteBudgetTables(t, id))
  {
    assert Arguments(Str(id)) == [Text(id)];
  }

  /** Deletion removes the rows with that id and only those. */
  lemma DeleteBudgetRemoves(t: Tables, id: string)
    ensures var r := DeleteBudgetTables(t, id);
      && (forall b :: b in r.budgets <==> b in t.budgets && b.id != id)
      && r.accounts == t.accounts && r.transactions == t.transactions
  {
    KeepMembers(t.budgets, (r: BudgetRow) => Some(id) != Some(r.id));
  }

  /** Deleting a freshly created budget gives back the tables of before. */
  lemma CreateThenDeleteBudget(t: Tables, name: string, month: string, amount: int, id: string)
    requires !HasBudgetId(t.budgets, id)
    ensures DeleteBudgetTables(CreateBudgetEffect(t, name, month, amount, id).1, id) == t
  {
    var keep := (r: BudgetRow) => Some(id) != Some(r.id);
    if CreateBudgetEffect(t, name, month, amount, id).0.None? {
      KeepAppend(t.budgets, BudgetRow(id, name, month, amount), keep);
    }
    KeepAll(t.budgets, keep);
  }

  // ---------------------------------------------------------------------
  // The routes over the database
  // ---------------------------------------------------------------------

  method CreateBudget(db: Database, name: string, month: string, amount: int, id: string) returns (r: Option<HttpError>)
    modifies db
    ensures (r, db.Snapshot()) == CreateBudgetEffect(old(db.Snapshot()), name, month, amount, id)
  {
    if amount < 0 {
      return Some(BadRequest(NegativeBudgetDetail));
    }
    var existing := db.budgets;
    if BudgetExists(existing, name, month) {
      return Some(BadRequest(BudgetExistsDetail));
    }
    ghost var before := db.Snapshot();
    var row := NewBudgetRow(name, month, amount, id);
    var raised := db.QueryInsertValues(CreateNewBudget, Items([Text(row.id), Text(row.name), Text(row.month), Num(row.amount)]));
    InsertBudgetEffect(before, row);
    r := None;
  }

  method DeleteBudget(db: Database, id: string)
    modifies db
    ensures db.Snapshot() == DeleteBudgetTables(old(db.Snapshot()), id)
  {
    ghost var before := db.Snapshot();
    var raised := db.QueryInsertValues(DeleteBudgetRequest, Str(id));
    DeleteBudgetEffect(before, id);
  }
}
