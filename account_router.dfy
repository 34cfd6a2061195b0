/** The account-creation route of the API: the three checks, in order, and
    the insert of the new account owned by the current user. */
module AccountRouter {
  import opened Base
  import opened SqlTables
  import opened DbConnectors

  const TypeNotAvailableDetail := "Account type not available"
  const NegativeBalanceDetail := "Account balance must be positive"
  const AccountExistsDetail := "Account already exists"

  /** Some account already carries this name. */
  predicate AccountExists(rows: seq<AccountRow>, name: string)
  {
    exists i :: 0 <= i < |rows| && rows[i].name == name
  }

  /** The checks of `app_create_account`, in their order: the type must be
      one of the configured account types, then the opening balance must not
      be negative (zero passes), then the name must be new. */
  function CheckNewAccount(rows: seq<AccountRow>, name: string, kind: string, balance: int): (r: Option<HttpError>)
    ensures r.None? <==> kind in AvailableAccountTypes && balance >= 0 && !AccountExists(rows, name)
    ensures kind !in AvailableAccountTypes ==> r == Some(BadRequest(TypeNotAvailableDetail))
    ensures kind in AvailableAccountTypes && balance < 0 ==> r == Some(BadRequest(NegativeBalanceDetail))
    ensures kind in AvailableAccountTypes && balance >= 0 && AccountExists(rows, name) ==> r == Some(BadRequest(AccountExistsDetail))
  {
    if kind !in AvailableAccountTypes then Some(BadRequest(TypeNotAvailableDetail))
    else if balance < 0 then Some(BadRequest(NegativeBalanceDetail))
    else if AccountExists(rows, name) then Some(BadRequest(AccountExistsDetail))
    else None
  }

  /** The row the route inserts: the generated id and the id of the current user are parameters. */
  function NewAccountRow(name: string, kind: string, balance: int, id: string, owner: string): AccountRow
  {
    AccountRow(id, name, kind, balance, owner)
  }

  /** The `create_new_account` insert appends the row unless its id is taken,
      in which case the statement fails and nothing changes. */
  lemma InsertAccountEffect(t: Tables, row: AccountRow)
    ensures InsertValues(t, CreateNewAccount, Items([Text(row.id), Text(row.name), Text(row.kind), Num(row.balance), Text(row.owner)]))
         == (None, if HasAccountId(t.accounts, row.id) then t else t.(accounts := t.accounts + [row]))
  {
    assert Arguments(Items([Text(row.id), Text(row.name), Text(row.kind), Num(row.balance), Text(row.owner)]))
        == [Text(row.id), Text(row.name), Text(row.kind), Num(row.balance), Text(row.owner)];
  }

  /** `app_create_account`: the rejection, if any, and the tables after it. */
  function CreateAccountEffect(t: Tables, name: string, kind: string, balance: int, id: string, owner: string): (Option<HttpError>, Tables)
  {
    match CheckNewAccount(t.accounts, name, kind, balance)
    case Some(e) => (Some(e), t)
    case None =>
      var row := NewAccountRow(name, kind, balance, id, owner);
      (None, if HasAccountId(t.accounts, id) then t else t.(accounts := t.accounts + [row]))
  }

  /** A rejected creation changes nothing; an accepted one with a fresh id
      adds exactly one account, at the end, with the given name, type and
      balance, owned by the current user. */
  lemma CreateAccountAdds(t: Tables, name: string, kind: string, balance: int, id: string, owner: string)
    requires !HasAccountId(t.accounts, id)
    ensures var r := CreateAccountEffect(t, name, kind, balance, id, owner);
      && (r.0.Some? ==> r.1 == t)
      && (r.0.None? ==>
            && |r.1.accounts| == |t.accounts| + 1
            && r.1.accounts[..|t.accounts|] == t.accounts
            && r.1.accounts[|t.accounts|] == AccountRow(id, name, kind, balance, owner)
            && AccountExists(r.1.accounts, name)
            && r.1.budgets == t.budgets && r.1.transactions == t.transactions)
  {
    var r := CreateAccountEffect(t, name, kind, balance, id, owner);
    if r.0.None? {
      assert r.1.accounts[|t.accounts|] == AccountRow(id, name, kind, balance, owner);
    }
  }

  /** Once an account is created, another account of the same name is
      refused, whatever its (valid) type and balance, and nothing changes. */
  lemma CreateAccountTwiceRejected(t: Tables, name: string, kind: string, balance: int, id: string, owner: string,
                                   kind2: string, balance2: int, id2: string, owner2: string)
    requires kind2 in AvailableAccountTypes && balance2 >= 0 && !HasAccountId(t.accounts, id)
    requires CreateAccountEffect(t, name, kind, balance, id, owner).0.None?
    ensures var t1 := CreateAccountEffect(t, name, kind, balance, id, owner).1;
      CreateAccountEffect(t1, name, kind2, balance2, id2, owner2) == (Some(BadRequest(AccountExistsDetail)), t1)
  {
    var t1 := CreateAccountEffect(t, name, kind, balance, id, owner).1;
    assert t1.accounts[|t.accounts|] == AccountRow(id, name, kind, balance, owner);
    assert AccountExists(t1.accounts, name);
  }

  method CreateAccount(db: Database, name: string, kind: string, balance: int, id: string, owner: string) returns (r: Option<HttpError>)
    modifies db
    ensures (r, db.Snapshot()) == CreateAccountEffect(old(db.Snapshot()), name, kind, balance, id, owner)
  {
    if kind !in AvailableAccountTypes {
      return Some(BadRequest(TypeNotAvailableDetail));
    }
    if balance < 0 {
      return Some(BadRequest(NegativeBalanceDetail));
    }
    var existing := db.accounts;
    if AccountExists(existing, name) {
      return Some(BadRequest(AccountExistsDetail));
    }
    ghost var before := db.Snapshot();
    var row := NewAccountRow(name, kind, balance, id, owner);
    var raised := db.QueryInsertValues(CreateNewAccount, Items([Text(row.id), Text(row.name), Text(row.kind), Num(row.balance), Text(row.owner)]));
    InsertAccountEffect(before, row);
    r := None;
  }
}
