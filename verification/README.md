# Bank Management System: account store, batch balance sum, error taxonomy

A Dafny model of the logic of the Bank Management System service. It has three parts.

- **Account store** (`Models`, `Crud`): the `accounts` table becomes a `map<int, Account>` from primary key to record. The table's column constraints become the store invariant `Models.Valid`: every record sits under its own `id`, and no two records share a `number`. `name` and `number` are NOT NULL columns, so they are plain strings in a stored record. Create, get, list, update and delete are pure functions. Create, update and delete return the store after the commit together with the value the Python function returns; get and list return only the value. The code checks nothing before committing. When the database refuses a commit, the store is left unchanged and the outcome is `CommitFailed(...)` naming the violated constraint; in the Python this is an integrity error escaping the function. `Rejected(...)` is a typed refusal made before anything is written, and only the corrected create and update (see Findings) use it.
- **Batch balance summation** (`BatchCalc`): `calc_total_balance` works over one snapshot of the balances. It splits indices `[0, n)` into ranges `(i, i + 10)`, sums each range under the `i < n` guard, and adds the partial sums in range order. The proofs show that the ranges partition `[0, n)` and that the result equals the plain sum.
- **Error taxonomy** (`Exceptions`): each exception class maps to a status code and a message. The two handlers build a response whose body is `{"error": message}`.

Modelling choices:
- `balance` (a `db.Float`) is a `real`, so sums are exact.
- Python's `None` is `Option.None`. "Truthy" for an optional string means present and non-empty.
- The snapshot read in `calc_total_balance` is the `seq<Account>` argument. It is an immutable value, so every partial sum reads the same balances.
- The thread pool is a sequential loop over the ranges. Partial sums are still collected in submission order and added in that order.
- A new primary key is one past the largest key in use, or 1 in an empty table (`Models.NextId`). This is SQLite's rowid rule below its 64-bit ceiling.
- `get_all_accounts` returns the records in ascending key order.
- When `create_account` breaks several constraints at once, the one reported is, in order: a null name, a null number, a duplicate number.
- A missing `balance` takes the column default 0.0.

The model follows the code, which validates nothing beyond the column constraints:
- Balances may be negative, and names may be empty.
- `delete_account` on a missing id returns `false`; it raises no error.
- Neither `create_account` nor `update_account` checks that a number is free; only the unique index catches a duplicate, at commit (see Findings).

## Model

| member | source | states |
|---|---|---|
| Models.NextId | app/models.py:6 | the key given to a new record is unused and above every key in use: 1 in an empty table, otherwise one past the largest key |
| Crud.CreateAccount | app/crud.py:5-9 | the create as the code writes it: the commit fails exactly when the name or number is null or the number is already used, and then the store is unchanged; otherwise exactly one record is added under a fresh id, with the given name, number and balance (0.0 when absent), other records untouched; the store invariant `Models.Valid` (primary key and unique, non-null number and non-null name of app/models.py:6-8) is preserved |
| Crud.CreateAccountChecked | app/crud.py:5-9 | a number another account carries is refused with a typed error before anything is written, exactly when the as-written create would fail at commit on the duplicate number; in every other case it is the as-written create; the invariant is preserved |
| Crud.DuplicateCreateRefused | app/models.py:8 | a second create with an existing number fails at commit (reported as the duplicate number when the name is present), and the account count stays at one more than before the first create |
| Crud.GetAccountById | app/crud.py:18-19 | returns a record exactly when the id is stored, and that record is the one under the id (whose own id matches in a valid store) |
| Crud.GetAllAccounts | app/crud.py:13-14 | returns as many records as are stored, each one a stored record, every stored record among them, in strictly ascending id order in a valid store |
| Crud.CreateThenGet | app/crud.py:5-19 | a created account is found by its new id with the created fields, and the store grew by one |
| Crud.ApplyUpdate | app/crud.py:28-33 | name and number are replaced only by a truthy value; balance is replaced by any supplied value, including 0; the id never changes |
| Crud.UpdateAccountAsWritten | app/crud.py:23-36 | the update as the code writes it: a missing id returns nothing and changes nothing; a truthy number held by another account makes the commit fail with the store unchanged; otherwise the target record becomes the overwritten record with its id kept, every other record is untouched, and the invariant is preserved |
| Crud.UpdateAccount | app/crud.py:23-36 | a missing id returns nothing and changes nothing; a truthy number held by another account is refused with a typed error before anything is written, exactly when the as-written update would fail at commit; in every other case it is the as-written update; the invariant is preserved |
| Crud.UpdateOnlyTouchesTarget | app/crud.py:23-36 | the as-written update keeps the key set, leaves every other record untouched, and the updated record keeps its id and is what a later get returns |
| Crud.UpdateIdempotent | app/crud.py:28-35 | repeating the same as-written update (and so the corrected one, which equals it whenever it does not refuse) leaves the store and the result as the first update did |
| Crud.CreateAsWrittenFailsAtCommit | app/crud.py:5-9 | concrete valid store where a new account takes account 1's number: as written, the commit fails with an untyped integrity error; the checked create refuses it with a typed error; neither changes the store |
| Crud.UpdateAsWrittenFailsAtCommit | app/crud.py:30-35 | concrete valid store where account 2 takes account 1's number: as written, the commit fails with an untyped integrity error; the corrected update refuses it with a typed error; neither changes the store |
| Crud.DeleteAccount | app/crud.py:40-47 | returns true exactly when the id is stored; afterwards the id is gone, every other record is untouched, a false return changes nothing, and the invariant is preserved |
| Crud.DeleteThenGet | app/crud.py:40-47 | after a delete the id is not found, and deleting again returns false and changes nothing |
| BatchCalc.Balances | app/batch_calc.py:11 | the balances list has one entry per account read, in read order, each that account's balance |
| BatchCalc.IndexRangesShape | app/batch_calc.py:12-25 | the ranges `BatchCalc.IndexRanges` builds start at 0, 10, 20, …, each start is below n, each range spans ten indices, there are ceil(n/10) of them, and none exist exactly when n is 0 |
| BatchCalc.RangesPartition | app/batch_calc.py:18-25 | the ranges are pairwise disjoint, an index is covered by a range clipped to n exactly when it lies in [0, n), and the range holding index i is range i/10 |
| BatchCalc.ProcessRange | app/batch_calc.py:16-22 | the loop returns the sum of the balances from start to min(end, n) |
| BatchCalc.GatherPartials | app/batch_calc.py:27-28 | one partial sum per range, in range order, each the guarded sum of its range |
| BatchCalc.Accumulate | app/batch_calc.py:24-31 | starting from 0 and adding partial sums in order gives their sum |
| BatchCalc.PartialSumsAddUp | app/batch_calc.py:16-31 | the partial sums over all ranges add up to the plain sum of all balances |
| BatchCalc.CalcTotalBalance | app/batch_calc.py:5-33 | the total equals the plain sum of the snapshot's balances, and 0 for no accounts |
| Exceptions.NewError | app/exceptions.py:12-18 | the status is 400 unless a non-zero status code is passed; a non-400 status can only come from the argument; None and 0 keep 400 |
| Exceptions.ToDict | app/exceptions.py:20-21 | the body has exactly one key, "error", mapped to the message |
| Exceptions.AccountNotFoundError | app/exceptions.py:24-27 | status 404 and message "Account not found: " followed by the argument |
| Exceptions.InsufficientFundsError | app/exceptions.py:30-33 | status 400 and message "Insufficient balance in account " followed by the account number |
| Exceptions.InvalidTransferError | app/exceptions.py:36-39 | status 400 and the fixed message |
| Exceptions.MessagesNameTheAccount | app/exceptions.py:24-33 | distinct argument texts give distinct not-found messages, and distinct account numbers give distinct insufficient-funds messages |
| Exceptions.HandleBmsException | app/exceptions.py:46-51 | the response status is the error's status and the body is its one-key error dictionary |
| Exceptions.HandleGenericException | app/exceptions.py:54-59 | always status 500 with the fixed generic message as the only entry |

## Left out

- Deposit, withdraw, transfer and the summary endpoint (`total_accounts`, `average_balance`) have no source. The route module imports `deposit_money`, `withdraw_money`, `transfer_money` and `batch_calc` from the CRUD module, but that module defines none of them. So transfer conservation and insufficient-funds checks are not modelled.
- The route layer calls `create_account` with an extra `email` argument, and the `Account` record has no `email` column. The model follows the CRUD signature and the record as declared.
- The Flask routes, the `jsonify` plumbing, the application factory and the logging done by both handlers are HTTP and I/O.
- The application factory registers neither error handler. The handlers are modelled as the functions they are, not as wired into request handling.
- The `print` inside `process_range` is console output.
- The thread pool is left out because the partial sums are independent. It is modelled as a sequential fold in submission order.
- Floating-point rounding and summation-order error in the balance sums are left out, because balances are exact reals.
- SQLAlchemy sessions, commits and configuration are replaced by the abstract map. The model also leaves out a failed commit's exception and the session state it leaves behind. It only records that the store keeps its contents.
- The `String(100)` and `String(50)` length limits are not enforced by the SQLite backend, so they are left out.
- Python truthiness of non-string values (numbers arriving from JSON) is left out. Names and numbers are strings.
- Email sending, web scraping, the command-line client and logger setup are outside this model. They are network, SMTP and console I/O.
- Models.NextId: once the largest key reaches 2^63-1, SQLite picks an unused key at random. This is not modelled, because keys are unbounded integers here.
- Exceptions.AccountNotFoundError: the argument is an id or a number formatted into the message; the model takes its text, so an id is its decimal text and an id and a number with the same digits give the same message.
- Crud.GetAllAccounts: SQL promises no row order without `ORDER BY`. Ascending key order is this model's choice (it is SQLite's rowid order in practice). The contract's order clause is stronger than anything the source promises.

## Findings

| source | as written | input that shows it | evidently intended | confidence | as-written member | corrected member |
|---|---|---|---|---|---|---|
| app/crud.py:30-31 | a truthy `number` overwrites the record's number without checking other accounts. Only the unique index stops the commit at line 35. The result is an untyped integrity error that no registered handler catches, so the web framework's default handling answers 500. | store with account 1 numbered "100" and account 2 numbered "200"; `update_account(2, number="100")` | reject a number another account holds with a typed error, store unchanged | medium, not executed | Crud.UpdateAccountAsWritten, with Crud.UpdateAsWrittenFailsAtCommit | Crud.UpdateAccount |
| app/crud.py:5-9 | a number already used by another account is passed to the database without a check. Only the unique index stops the commit at line 8. The result is the same untyped integrity error and default 500 as for the update | store with account 1 numbered "100" and account 2 numbered "200"; `create_account("Carol", "100", None)` | reject a number another account holds with a typed error, store unchanged | medium, not executed | Crud.CreateAccount, with Crud.CreateAsWrittenFailsAtCommit | Crud.CreateAccountChecked |
