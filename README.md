# my_bank_app bookkeeping engine in Dafny

This project models the bookkeeping engine of the `my_bank_app` personal-finance
application and proves properties of it. The engine moves account balances and
budget amounts when a debit, a credit or a transfer ("transfert" in the
application's configuration) is applied. It exists in four forms, and each has
its own module:

- **FileEngine** (`file_engine.dfy`) is the file-backed engine of `src/functions.py`,
  which `AA/src/functions.py` copies almost line for line.
  - The account table is a map from name to account record. The budget table
    is a map keyed by (name, month).
  - `debit_transaction`, `credit_transaction` and `transfert_transaction` work on
    loaded copies of the records and save them back. They are specification
    functions (`Debit`, `Credit`, `Transfert`, `Apply`).
  - The class `FileStore` holds the two tables as fields. Its methods mutate
    those fields and are proved equal to the functions.
- **SqlTables** and **DbConnectors** (`sql_tables.dfy`, `db_connectors.dfy`) model the
  PostgreSQL tables and `query_insert_values`.
  - The three tables are sequences of rows in `SELECT` order.
  - Every statement text has its effect on the rows stated.
  - The per-kind argument rewriting is modelled, and so is the rule that a
    failing statement is rolled back and only printed.
  - The class `Database` holds the tables. Its method `QueryInsertValues` is
    proved equal to the function `InsertValues`.
- **TransactionRouter** (`transaction_router.dfy`) covers `app_create_transaction`
  and `app_delete_transaction`:
  - the validation chain;
  - the budget resolution, with `.strip().lower()` and `next(...)`;
  - the three writes of creation;
  - the negate-and-reapply of deletion.
- **BudgetRouter** and **AccountRouter** (`budget_router.dfy`, `account_router.dfy`)
  cover the creation checks and inserts, the listings that hide the `default`
  budget, and budget deletion.
- **BankObjects** (`bank_objects.dfy`) models the `Account`, `Budget` and
  `Transaction` objects. Their class source is not part of this model, so they
  are modelled as their unit tests pin them:
  - validated construction;
  - `deposit` and `withdraw`, which move `amount` and append to the ordered
    `history`;
  - `add_amount` and `withdraw_amount`.
- **Base** (`base.dfy`) holds the shared vocabulary: `Option`, `Result`,
  `HttpError`, and the two enumerations of `src/api/api_vars.py:45-46`.

Conventions:

- Money is an exact `int` number of cents.
- Generated ids, the current time, the current month, the parsed transaction
  date and the current user's id are parameters.
- Python exceptions are `Err`/`Some` values of a `Result` or `Option`.

Where the code's intent is clear, behaviour is kept as the code has it. Six
places where the code evidently does not do what its authors meant are listed
under "## Findings". Each has a member that models the code as written, and the
rest of the model uses the corrected behaviour:

- The file engine's transfer, and so `apply_transaction` for every type other
  than debit and credit, moves money (Findings row 1).
- Validation, the SQL account update and transaction deletion all test the
  configured "transfert" spelling rather than "transfer" (rows 2, 3 and 4).
- Budget resolution recognises the "None" sentinel (row 5).
- Transaction creation gets its id without the failing `await` (row 6).

Lemmas show the surprising consequences of the code that is kept:

- A transaction created against the `default` budget leaves budgets alone, but
  deleting it still re-applies the negated amount to that budget
  (`TransactionRouter.DefaultBudgetDrift`).
- The SQL budget update subtracts for a credit too
  (`TransactionRouter.CreditChargesBudget`). The file engine's credit adds to
  the budget instead (`FileEngine.ApplyCredit`).
- A transaction whose id is already taken is not recorded, but it still moves
  money (`TransactionRouter.DuplicateIdStillMovesMoney`).
- A self-transfer in the file engine saves the stale destination copy last, so
  the account gains the amount (`FileEngine.SelfTransfertCredits`).
- Neither engine checks for insufficient funds. Only `Account.withdraw` refuses
  to overdraw (archives/(obsolete)myBankPackage/__init__.py:230-236).

## Model

| member | source | states |
|---|---|---|
| `FileEngine.GenerateTransaction` | src/functions.py:271-314 | Succeeds exactly for the types "debit", "credit" and "transfert", else raises "Invalid transaction type". The record keeps type, origin, destination, amount and budget, carries the generated id, and is dated now when no date is given. |
| `FileEngine.LoadAccount` | src/functions.py:62-67 | Returns the entry under the name exactly when the name is a key, else "Account not found". The copy is at AA/src/functions.py:205-210. |
| `FileEngine.LoadBudget` | src/functions.py:118-130 | Returns the budget row of (name, current month) when present, else "Budget not found". |
| `FileEngine.SaveAccount` | src/functions.py:82-85 | Replaces or adds exactly the entry keyed by the record's own name. Every other entry and all budgets are unchanged, and a well-keyed table stays well keyed. The copy is at AA/src/functions.py:225-228. |
| `FileEngine.SaveBudget` | src/functions.py:134-157 | Replaces exactly the (name, month) row. Accounts and the other budget rows are unchanged. |
| `FileEngine.Debit` | src/functions.py:180-192 | No origin raises before any change. Otherwise the origin's entry becomes the loaded copy minus the amount, with no funds check. The budget drops by the amount iff the transaction names one, and a named budget that was not loaded raises after the account is saved. The copy is at AA/src/functions.py:4-32. |
| `FileEngine.Credit` | src/functions.py:212-224 | No destination raises before any change. Otherwise the destination rises by the amount. The budget rises by the amount iff the transaction names one. The copy is at AA/src/functions.py:36-64. |
| `FileEngine.Transfert` | src/functions.py:244-261 | Corrected (Findings row 1). A missing origin, then a missing destination, raises before any change. Otherwise nothing is raised and both records are saved, origin first: the origin's entry is its loaded copy minus the amount, then the destination's is its loaded copy plus the amount. The budgets never change. The copy is at AA/src/functions.py:68-101. |
| `FileEngine.TransfertMoves` | src/functions.py:244-261 | Corrected transfer between distinct accounts: origin − amount, destination + amount, their sum kept, and every other account unchanged. |
| `FileEngine.TransfertMovesNothingAsWritten` | src/functions.py:252-254 | As written, a transfer with both records loaded raises KeyError("amount ") and leaves the store unchanged, while the corrected transfer succeeds. |
| `FileEngine.SelfTransfertCredits` | src/functions.py:244-261 | A transfer from an account to itself ends with that account's loaded amount plus the transfer amount. |
| `FileEngine.Apply` | src/functions.py:320-367 | Corrected (Findings row 1): every type other than debit and credit goes to the corrected transfer, whereas as written each loaded transfer raises KeyError("amount "). Returns the transaction unchanged on success. Any failure leaves the store unchanged. It succeeds iff every named budget and account exists and the routine chosen by type (debit, credit, or transfer for every other type) has the accounts it needs. A missing budget is reported first. The copy is at AA/src/functions.py:106-155. |
| `FileEngine.ApplyDebit` | src/functions.py:339-362 | Applying a debit lowers only the origin, by exactly the amount, and keeps the account names. It leaves budgets alone unless one is named, in which case that budget drops by the amount. The copy is at AA/src/functions.py:141-142. |
| `FileEngine.ApplyCredit` | src/functions.py:339-366 | Applying a credit raises only the destination, by exactly the amount. A named budget rises by the amount. The copy is at AA/src/functions.py:145-146. |
| `FileEngine.DebitThenCreditRestores` | AA/src/unit_tests.py:45-51 | A debit and then a credit of the same amount to the same account, with the same budget or none, restore both tables. |
| `FileEngine.DebitCreditScenario` | tests/unit_tests.py:242-252 | For a 100.00 account, a generated debit of 50.00 leaves 50.00, and a following credit of 50.00 restores 100.00. |
| `FileEngine.FileStore.LoadSpecificAccount` | src/functions.py:62-67 | Returns what `LoadAccount` gives for the current table. |
| `FileEngine.FileStore.SaveAccountChanges` | src/functions.py:82-85 | The new table is `SaveAccount` of the old one. |
| `FileEngine.FileStore.SaveBudgetChange` | src/functions.py:134-157 | The new budget table is `SaveBudget` of the old one. |
| `FileEngine.FileStore.DebitTransaction` | src/functions.py:180-192 | The exception and the new tables are those of `Debit`. |
| `FileEngine.FileStore.CreditTransaction` | src/functions.py:212-224 | The exception and the new tables are those of `Credit`. |
| `FileEngine.FileStore.TransfertTransaction` | src/functions.py:244-261 | Corrected (Findings row 1). The exception and the new tables are those of the corrected `Transfert`. |
| `FileEngine.FileStore.ApplyTransaction` | src/functions.py:320-367 | Corrected (Findings row 1). The result and the new tables are those of `Apply`. |
| `SqlTables.Adjust` | src/api/api_db_connectors.py:130-138 | The balance update keeps every row. |
| `SqlTables.AdjustAt` | src/api/api_db_connectors.py:130-138 | Row by row: id, name, type and owner are kept. The row named by the first name loses the first amount, the row named by the second gains the second amount, every other row is unchanged, and a NULL name matches nothing. |
| `SqlTables.AdjustTotal` | src/api/api_db_connectors.py:171-179 | A transfer update changes the sum of balances by the amount times (rows named destination − rows named origin). |
| `SqlTables.TransferConservesTotal` | src/api/api_db_connectors.py:171-179 | Between two distinct, uniquely named accounts, the transfer update preserves the sum of balances. |
| `SqlTables.AdjustUndo` | src/api/api_db_connectors.py:150-179 | Running the update with negated amounts restores every row. |
| `SqlTables.Charge` | src/api/api_db_connectors.py:129 | The budget update keeps every row. |
| `SqlTables.ChargeAt` | src/api/api_db_connectors.py:129 | Row by row: the row with that id loses the amount, whatever the transaction kind. Every other row is unchanged. |
| `SqlTables.ChargeUndo` | src/api/api_db_connectors.py:129 | Charging the negated amount restores every budget. |
| `SqlTables.FindTransaction` | src/api/api_transaction_router.py:187-189 | Returns a row of the table with that id, and returns nothing exactly when no row has that id. |
| `SqlTables.FindAppended` | src/api/api_db_connectors.py:127-128 | A row inserted with a fresh id is what the lookup by that id finds. |
| `SqlTables.DeleteAppended` | src/api/api_db_connectors.py:127-128 | Deleting the id of a freshly inserted row gives back the table before the insert. |
| `SqlTables.Exec` | src/api/api_db_connectors.py:122-189 | A statement succeeds only with as many arguments as placeholders. Account statements touch only accounts, budget statements only budgets, and transaction statements only transactions. |
| `DbConnectors.TransformAdditional` | src/api/api_db_connectors.py:55-58 | A lone string becomes a one-element tuple, and anything else is returned unchanged. |
| `DbConnectors.Arguments` | src/api/api_db_connectors.py:118-120 | The driver gets the string as a one-element list, the tuple as is, or no arguments for `None`. |
| `DbConnectors.InsertQuery` | src/api/api_db_connectors.py:122-143 | Exactly the eight request names have a statement. The account and budget updates are the two update statements. |
| `DbConnectors.InformationQuery` | src/api/api_db_connectors.py:84-96 | Exactly the six read request names have a query. |
| `DbConnectors.RewriteWith` | src/api/api_db_connectors.py:145-179 | A credit tuple becomes (amount, destination) and a debit tuple becomes (amount, origin). A transfer tuple becomes (origin, destination, amount). Any other kind keeps the generic statement and its tuple, and only a malformed tuple raises. |
| `DbConnectors.InsertValues` | src/api/api_db_connectors.py:117-189 | An unknown request raises `ValueError` exactly, and only the account update can raise anything else. A raise leaves the tables unchanged. |
| `DbConnectors.ApplyToAccountsEffect` | src/api/api_db_connectors.py:145-179 | The router's account tuple never raises. Credit raises only the destination, debit lowers only the origin, and a transfer moves the amount. Any other kind changes nothing. |
| `DbConnectors.ApplyToBudgetEffect` | src/api/api_db_connectors.py:129 | The budget tuple subtracts the amount from exactly the rows with that id. |
| `DbConnectors.ApplyThenNegateRestores` | src/api/api_db_connectors.py:150-179 | Applying an amount and then its negation with the same kind and accounts restores every balance. |
| `DbConnectors.TransferConserves` | src/api/api_db_connectors.py:168-179 | The corrected connector runs a transfer between distinct, uniquely named accounts without raising, and keeps the sum of balances. |
| `DbConnectors.TransfertMovesNothingAsWritten` | src/api/api_db_connectors.py:168-170 | As written, a "transfert" tuple reaches the generic statement, which fails and moves no balance. |
| `DbConnectors.Database.QueryInsertValues` | src/api/api_db_connectors.py:117-189 | The exception and the new tables are those of `InsertValues`. |
| `TransactionRouter.ValidateTransaction` | src/api/api_transaction_router.py:113-127 | Corrected (Findings row 2): the transfer check tests "transfert". Accepts iff the amount is > 0, the type is configured, a debit names an origin, a credit a destination, and a transfer both ("None" meaning absent). A non-positive amount is reported first, then an unknown type, and every rejection is a 400. |
| `TransactionRouter.TransfertWithoutAccountsAcceptedAsWritten` | src/api/api_transaction_router.py:126-127 | As written, a "transfert" naming neither account passes validation, while the corrected chain refuses it. |
| `TransactionRouter.TrimLeft` | src/api/api_transaction_router.py:145 | Stripping never lengthens the text. |
| `TransactionRouter.TrimRight` | src/api/api_transaction_router.py:145 | Stripping never lengthens the text. |
| `TransactionRouter.TrimLeftSpec` | src/api/api_transaction_router.py:145 | The result is a suffix of the text, every dropped character is whitespace, and the result does not start with whitespace. |
| `TransactionRouter.TrimRightSpec` | src/api/api_transaction_router.py:145 | The result is a prefix of the text, every dropped character is whitespace, and the result does not end with whitespace. |
| `TransactionRouter.Lower` | src/api/api_transaction_router.py:145 | Lower-casing keeps the length. |
| `TransactionRouter.LowerAt` | src/api/api_transaction_router.py:145 | Each ASCII capital becomes its small letter, every other character is kept, and no capital remains. |
| `TransactionRouter.FirstDefaultFrom` | src/api/api_transaction_router.py:139-140 | Finds the first budget whose stripped, lower-cased name is "default", or proves there is none. |
| `TransactionRouter.FirstNamedFrom` | src/api/api_transaction_router.py:145-146 | Finds the first budget whose name and month both match after normalisation, or proves there is none. A missing month raises exactly when some name matches. |
| `TransactionRouter.ResolveWith` | src/api/api_transaction_router.py:137-147 | The default flag is the outcome of the sentinel test. With the sentinel, the id is that of the first budget whose normalised name is "default", and there is no id iff no budget is. Otherwise the id is that of the first budget whose normalised name and month both match, and there is no id iff none does. A missing name raises AttributeError iff the table is not empty, and a missing month iff some name matches. Any other outcome is not an error. |
| `TransactionRouter.ResolveBudget` | src/api/api_transaction_router.py:137-147 | Corrected (Findings row 5). "None" never raises and picks the first budget whose stripped, lower-cased name is "default", with no id iff there is none. Any other name with a month never raises and picks the first budget whose name and month both match, with no id iff none matches. A missing name raises AttributeError iff the table is not empty, and another name with a missing month iff some budget's name matches. The default flag is set iff the name is "None". |
| `TransactionRouter.LowerNone` | src/api/api_transaction_router.py:145 | "None" normalises to "none". |
| `TransactionRouter.NoneSentinelMissedAsWritten` | src/api/api_transaction_router.py:137 | As written, "None" is looked up as a budget name. Without a budget named "none", the transaction gets no budget id and is not treated as default, whereas the corrected resolution picks the default budget. |
| `TransactionRouter.InsertRecordEffect` | src/api/api_transaction_router.py:155-157 | The insert appends the record unless its id is taken. It never raises. |
| `TransactionRouter.DuplicateIdStillMovesMoney` | src/api/api_transaction_router.py:155-167 | With an id already in the table, creation still reports success and moves the balances, but records nothing. |
| `TransactionRouter.CreateEffect` | src/api/api_transaction_router.py:113-167 | Corrected (Findings rows 2, 5 and 6). A validation failure is returned as that 400, before any other check. Next come a budget-resolution error, then a date that does not parse (ValueError). Every rejection leaves the tables unchanged. Creation succeeds iff validation passes, the budget resolves and the date parses. |
| `TransactionRouter.CreateNeverWritesAsWritten` | src/api/api_transaction_router.py:150-157 | As written, every request is rejected and leaves the tables unchanged. A request the corrected route accepts ends in the TypeError of the awaited id, and any other request gets the corrected route's rejection. |
| `TransactionRouter.CreditChargesBudget` | src/api/api_transaction_router.py:164-167 | Creating a credit with a named budget lowers that budget by the amount. |
| `TransactionRouter.DeleteRecordEffect` | src/api/api_transaction_router.py:219-220 | The delete removes the rows with that id and touches nothing else. |
| `TransactionRouter.TransfertNotReversedAsWritten` | src/api/api_transaction_router.py:210-213 | As written, deleting a stored "transfert" leaves every balance as it is, while the corrected deletion re-applies the negated transfer. |
| `TransactionRouter.DeleteCreated` | src/api/api_transaction_router.py:187-220 | Deleting a just-appended record re-applies its negated amount to its accounts and its budget, and restores the transaction table. |
| `TransactionRouter.CreatedTables` | src/api/api_transaction_router.py:155-167 | A valid creation with a fresh id: accounts updated by kind, the budget charged unless default, and the record appended. |
| `TransactionRouter.CreateThenDeleteRestores` | src/api/api_transaction_router.py:155-220 | Creating and then deleting the same fresh id restores all three tables whenever the default budget is not chosen. |
| `TransactionRouter.DefaultBudgetDrift` | src/api/api_transaction_router.py:164-217 | With the default budget, create then delete restores accounts and transactions, but charges the default budget with the negated amount. |
| `TransactionRouter.CreateTransaction` | src/api/api_transaction_router.py:113-169 | Corrected (Findings rows 2, 5 and 6). The outcome and the new tables are those of `CreateEffect`. |
| `TransactionRouter.DeleteTransaction` | src/api/api_transaction_router.py:187-220 | Corrected (Findings rows 3 and 4): a stored "transfert" is reversed by sending its stored kind to the corrected account update, where line 212 sends the literal "transfer". The outcome and the new tables are those of `DeleteEffect`. |
| `BudgetRouter.AvailableBudgets` | src/api/api_budget_router.py:35 | The listing has no more entries than the table. |
| `BudgetRouter.AvailableBudgetsMembers` | src/api/api_budget_router.py:33-36 | A name is listed iff some budget carries it and it is not exactly "default". |
| `BudgetRouter.BudgetTableMembers` | src/api/api_budget_router.py:45-48 | The budget table keeps exactly the rows not named "default". |
| `BudgetRouter.CheckNewBudget` | src/api/api_budget_router.py:60-68 | Accepts iff the amount is ≥ 0 and the (name, month) pair is new. A negative amount is reported first. |
| `BudgetRouter.InsertBudgetEffect` | src/api/api_db_connectors.py:125 | The budget insert appends the row unless its id is taken, and never raises. |
| `BudgetRouter.CreateBudgetAdds` | src/api/api_budget_router.py:60-80 | A rejection changes nothing. An acceptance adds exactly one row at the end, with the given name, month and amount, and the pair then exists. |
| `BudgetRouter.CreateBudgetTwiceRejected` | src/api/api_budget_router.py:64-68 | Creating the same (name, month) again is refused with "Budget already exists" and changes nothing. |
| `BudgetRouter.DeleteBudgetEffect` | src/api/api_budget_router.py:92 | The delete request, sent with the id as a lone string, deletes by that id. |
| `BudgetRouter.DeleteBudgetRemoves` | src/api/api_budget_router.py:92 | Exactly the rows with that id disappear, and the other tables stay. |
| `BudgetRouter.CreateThenDeleteBudget` | src/api/api_budget_router.py:72-92 | Deleting a freshly created budget restores the tables. |
| `BudgetRouter.CreateBudget` | src/api/api_budget_router.py:52-83 | The outcome and the new tables are those of the creation checks followed by the insert. |
| `BudgetRouter.DeleteBudget` | src/api/api_budget_router.py:87-93 | The new tables are those of the deletion by id. |
| `AccountRouter.CheckNewAccount` | src/api/api_account_router.py:71-82 | Accepts iff the type is configured, the balance is ≥ 0 and the name is new. The checks are reported in that order. |
| `AccountRouter.InsertAccountEffect` | src/api/api_db_connectors.py:123 | The account insert appends the row unless its id is taken, and never raises. |
| `AccountRouter.CreateAccountAdds` | src/api/api_account_router.py:71-99 | A rejection changes nothing. An acceptance adds exactly one account at the end, with the given name, type and balance, owned by the current user. |
| `AccountRouter.CreateAccountTwiceRejected` | src/api/api_account_router.py:79-82 | A second account with the same name is refused with "Account already exists" and changes nothing. |
| `AccountRouter.CreateAccount` | src/api/api_account_router.py:62-104 | The outcome and the new tables are those of the creation checks followed by the insert. |
| `BankObjects.NetAppend` | myBankPackage/tests.py:136-153 | Appending a history entry adds its signed amount to the net movement the history records. |
| `BankObjects.CheckAccount` | myBankPackage/tests.py:69-103 | Accepts iff the type is "checking" or "savings" and the amount is ≥ 0. A bad type is a TypeError and is reported first. A negative amount is a ValueError. |
| `BankObjects.Account.constructor` | tests/unit_tests.py:55-79 | Stores name, type and amount with an empty history, and establishes the account invariant. |
| `BankObjects.Account.New` | myBankPackage/tests.py:69-103 | Raises exactly as `CheckAccount` says. Otherwise it returns a fresh valid account with the given fields. |
| `BankObjects.Account.Deposit` | tests/unit_tests.py:96-102 | A negative amount is a ValueError. Otherwise the amount rises by exactly the deposit and a "deposit" entry is appended. The invariant is kept: balance ≥ 0, equal to the opening amount plus the history's net. |
| `BankObjects.Account.Withdraw` | tests/unit_tests.py:106-121 | Succeeds iff 0 ≤ amount ≤ balance, else a ValueError with nothing changed. On success the amount falls by exactly the withdrawal and a "withdraw" entry is appended, keeping the invariant. |
| `BankObjects.DepositThenWithdraw` | myBankPackage/tests.py:111-153 | Deposit then withdraw: the final amount, the rejection of an over-withdrawal, and the two history entries in call order. |
| `BankObjects.CheckBudget` | myBankPackage/tests.py:158-178 | A budget is accepted iff its amount is ≥ 0, else a ValueError. |
| `BankObjects.Budget.constructor` | tests/unit_tests.py:163-175 | Stores name, month and amount. |
| `BankObjects.Budget.New` | myBankPackage/tests.py:158-178 | A negative amount is a ValueError. Otherwise it returns a fresh budget with the given fields. |
| `BankObjects.Budget.AddAmount` | tests/unit_tests.py:179-184 | The amount rises by exactly the given value. |
| `BankObjects.Budget.WithdrawAmount` | tests/unit_tests.py:188-200 | Succeeds iff the value does not exceed the budget, else a ValueError with nothing changed. On success the budget falls by exactly that value and stays ≥ 0. |
| `BankObjects.NewTransaction` | myBankPackage/tests.py:208-253 | An unknown type is a TypeError, then a negative amount is a ValueError. Otherwise every field, date included, is kept as given. |

## Left out

- The asyncpg connection lifecycle, async/await, FastAPI routing, the rate limiter and authentication are left out. Only the table effects and the route decisions are modelled.
- The broken call plumbing of the routers is not modelled; only their decisions are. This covers:
  - calls to async functions without `await` (the opposite fault, awaiting the synchronous `generate_uuid`, is Findings row 6);
  - the missing `query_pg_db` import in the account router;
  - the extra `history` argument of the budget and account inserts, where the statements take 4 and 5 placeholders.
- The users table and the read routes other than the budget listings are left out. The current user's id is a parameter.
- JSON/CSV/pandas file I/O of the file engine is replaced by two in-memory maps. This covers `load_account_table`, `load_budget_table` and the pandas precedence errors in `load_specific_budget` and `save_budget_change`.
- `FileEngine.LoadBudget`: the budget lookup by (name, current month) stands for `load_specific_budget`, whose pandas filter cannot run as written.
- The default arguments of `generate_transaction` (src/functions.py:271-276: type "debit", no accounts, amount 0.0, no budget) are not modelled; `FileEngine.GenerateTransaction` takes every argument explicitly.
- `TransactionRouter.TrimLeft`: `strip()` and `lower()` are modelled on ASCII (whitespace 9-13 and 28-32, letters A-Z). Unicode whitespace and case mapping are not modelled.
- Floats are replaced by integer cents, so rounding of float amounts is not modelled.
- The `CHECK (balance >= 0)` constraint of one of the table-creation scripts is not assumed, because the two scripts disagree.
- Budget history and the `Transaction` object's `apply`, `save` and id are left out, because the tests do not pin them. The archived class's budget-month and per-type account checks are left out for the same reason: the tests construct a debit with a budget and no month and expect success.
- The object account types are "checking" and "savings", as the tests pin them. The API's enumeration ("checking", "saving", "investment") is a separate constant.
- Streamlit, the auth router, the secret and credential scripts and the table-creation scripts are outside the engine and are not modelled.

## Findings

| source | as written | input that shows it | evidently intended | confidence | as-written member | corrected member |
|---|---|---|---|---|---|---|
| src/functions.py:252-254 | the origin is read under the key "amount " (trailing space), and `.save()` is called on a dict | any transfer whose origin and destination both load | origin − amount, destination + amount, both records saved | high, not executed | `FileEngine.TransfertAsWritten`, `FileEngine.TransfertMovesNothingAsWritten` | `FileEngine.Transfert`, `FileEngine.TransfertMoves` |
| src/api/api_transaction_router.py:126 | the account check for transfers compares the type with "transfer", a type already refused one check earlier | amount 1, type "transfert", origin "None", destination "None" | a "transfert" must name both accounts | high, not executed | `TransactionRouter.ValidateTransactionAsWritten`, `TransactionRouter.TransfertWithoutAccountsAcceptedAsWritten` | `TransactionRouter.ValidateTransaction` |
| src/api/api_db_connectors.py:168 | the rewriting branch tests "transfer", so a "transfert" tuple reaches the generic statement, which fails | ("transfert", 100, "A", "B") | origin − amount and destination + amount | high, not executed | `DbConnectors.RewriteAccountArgumentsAsWritten`, `DbConnectors.TransfertMovesNothingAsWritten` | `DbConnectors.RewriteAccountArguments`, `DbConnectors.TransferConserves` |
| src/api/api_transaction_router.py:211 | deletion re-applies a transfer only when the stored type is "transfer" | deleting a stored "transfert" between A and B | the transfer is reversed | high, not executed | `TransactionRouter.DeleteEffectAsWritten`, `TransactionRouter.TransfertNotReversedAsWritten` | `TransactionRouter.DeleteEffect`, `TransactionRouter.CreateThenDeleteRestores` |
| src/api/api_transaction_router.py:137 | `budget_name is "None"` tests identity, which a request string does not share with the literal | budget name "None" with no budget named "none" | the budget named "default" is chosen | medium, not executed | `TransactionRouter.ResolveBudgetAsWritten`, `TransactionRouter.NoneSentinelMissedAsWritten` | `TransactionRouter.ResolveBudget` |
| src/api/api_transaction_router.py:153 | `await generate_uuid()` awaits the plain string that the synchronous `generate_uuid` (src/api/api_vars.py:24-27) returns, which raises TypeError before any write | an empty budget table; amount 100, type "debit", origin "A", budget "Food" for month "2024-01", date "2024-01-01" | a fresh id is generated and the three writes run | high, not executed | `TransactionRouter.CreateEffectAsWritten`, `TransactionRouter.CreateNeverWritesAsWritten` | `TransactionRouter.CreateEffect`, `TransactionRouter.CreatedTables` |
