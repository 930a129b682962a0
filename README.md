# BudgetTracker transaction ledger

BudgetTracker is a desktop budget application. It has an Electron main process that
keeps transactions in a SQLite table, and a React front end that shows the totals
and the most recent records. The front end also runs in a plain browser. There it
keeps the transactions in component state and updates the totals by hand.

This project models four parts of that program:

- **The database layer** (`ledger_db.dfy`, `LedgerDb`). The `transactions` table is a
  class `Database` with these fields:
  - the rows of the table;
  - the AUTOINCREMENT counter, the value SQLite keeps in `sqlite_sequence`;
  - a ghost set of every id ever issued.

  `initDatabase`, `addTransaction`, `getTransactions`, `deleteTransaction` and
  `getStats` are the class's members:
  - the CHECK constraint on `type` and the full-counter case are error results;
  - `ORDER BY date DESC, id DESC` is a sort under SQLite's BINARY text collation;
  - `COALESCE(SUM(amount), 0)` is a recursive sum whose empty value is 0.
- **The shared values and pure logic** (`ledger.dfy`, `Ledger`). This covers the
  `Transaction` and `Stats` types and totals recomputed from a list of transactions.
  It also covers the "remove every record with this id" filter. The database's
  DELETE and the browser handler's `filter` both apply it.
- **The App component's transaction state** (`app.dfy`, `App`). The React state
  `transactions`/`stats` is a class `AppState`. The browser-mode handlers
  `handleAddTransaction` and `handleDeleteTransaction` are methods on it. The central
  property is that `stats` always equals the totals recomputed over `transactions`:
  - adding keeps it for every well-typed record;
  - deleting keeps it only while no two records share an id.

  A concrete example shows the drift when two records do share an id.
- **The add-transaction dialog** (`transaction_form.dfy`, `AddTransactionModal`). The
  form state is a class `Form`. It covers the type buttons, which clear the chosen
  category, the edits to each field, and the submit guard. What the dialog submits
  always has a valid type and one of that type's categories.

`iso_date.dfy` (`IsoDate`) proves a supporting fact. For dates in the YYYY-MM-DD form
of ISO 8601 (section 4.1.2.2 of ISO 8601:2004), SQLite's text order is calendar
order. So the listing really shows later days first.

`wrappers.dfy` holds the `Option` and `Result` datatypes.

Amounts are Dafny `real`s: exact, with no rounding. `parseFloat`, `Date.now()` and
today's date are parameters.

In Electron mode the statistics come from `getStats`, which sums the stored rows
(electron/db.ts:61-81). In browser mode the code instead updates `stats`
incrementally, in the two handlers (src/App.tsx:60-72 and 95-107). The model
follows the code: `AppState` keeps the incremental update, and the lemmas prove when
it agrees with recomputing.

## Model

| member | source | states |
|---|---|---|
| Ledger.WithId | electron/db.ts:52 | `{ id, ...transaction }` carries the given id and exactly the submitted fields |
| Ledger.WithIdFieldsRoundTrip | src/types/electron.d.ts:1-8 | splitting a record into its id and its other fields and putting them back together gives the same record |
| Ledger.Totals | electron/db.ts:76-80 | the recomputed statistics have `balance == totalIncome - totalExpenses` |
| Ledger.SumOfKindNoMatch | electron/db.ts:62-74 | with no row of a type, its total is 0 (`COALESCE(SUM(amount), 0)` over no rows) |
| Ledger.SumOfKindConcat | electron/db.ts:62-74 | the total of a type over a concatenation is the sum of the two totals |
| Ledger.SumOfKindAppend | electron/db.ts:62-74 | one more row moves only the total of its own type, by its amount |
| Ledger.SumOfKindPermutation | electron/db.ts:62-74 | the totals do not depend on the order of the rows (SQL sums an unordered set) |
| Ledger.RemoveId | electron/db.ts:55-59 | the filter never lengthens the list, and it changes nothing when no record has the id |
| Ledger.RemoveIdMembers | src/App.tsx:92 | the filter keeps exactly the records whose id differs from the one deleted |
| Ledger.RemoveIdRemovesAll | src/App.tsx:92 | no record with the deleted id survives |
| Ledger.RemoveIdConcat | src/App.tsx:92 | the filter works record by record, so the survivors keep their order |
| Ledger.RemoveIdSingle | src/App.tsx:92 | on one record, the filter keeps it exactly when its id differs |
| Ledger.RemoveIdKeeps | electron/db.ts:55-59 | deleting keeps ids distinct and every type valid |
| Ledger.SumOfKindRemoveId | electron/db.ts:61-81 | with distinct ids, deleting a record lowers each total by exactly that record's contribution |
| Ledger.RemoveIdExactlyOne | electron/db.ts:55-59 | with distinct ids, deleting an id removes exactly the one record carrying it, and the rest keep their order |
| LedgerDb.TextLessIrreflexive | electron/db.ts:36 | no date text sorts before itself |
| LedgerDb.TextLessTransitive | electron/db.ts:36 | the text order on dates is transitive |
| LedgerDb.TextLessTrichotomy | electron/db.ts:36 | two date texts are equal or exactly one is smaller |
| LedgerDb.TextLessAt | electron/db.ts:36 | texts that agree up to an index and differ there are ordered by the character at that index |
| LedgerDb.PrecedesStrictTotal | electron/db.ts:36 | `ORDER BY date DESC, id DESC` is a strict order, and it is total on rows with different ids |
| LedgerDb.InsertListed | electron/db.ts:36 | inserting a row into a listing adds exactly that row |
| LedgerDb.SortRows | electron/db.ts:36-37 | the listing holds exactly the rows of the table |
| LedgerDb.InsertListedSorted | electron/db.ts:36 | inserting a row whose id is new into a listing keeps it in listing order |
| LedgerDb.SortRowsListed | electron/db.ts:36-37 | with distinct ids (the PRIMARY KEY), the rows come out in listing order |
| LedgerDb.ListingUnique | electron/db.ts:36 | two listings of the same rows are identical, so the listing is fully determined |
| LedgerDb.LatestAddedListedFirst | electron/db.ts:36-37 | a row added last, dated no earlier than the others, is listed first |
| LedgerDb.Database.constructor | electron/db.ts:6 | before `initDatabase` there is no connection; the table and counter are whatever `budget.db` holds from earlier sessions (empty and 0 for a new file), and every id up to the counter counts as already handed out |
| LedgerDb.Database.InitDatabase | electron/db.ts:8-33 | opening the connection with `CREATE TABLE IF NOT EXISTS` keeps the rows and counter an earlier session left in the file |
| LedgerDb.Database.AddTransaction | electron/db.ts:40-53 | the insert fails exactly on a type outside 'income'/'expense' (CHECK, line 22) or a full counter (AUTOINCREMENT, line 20), and a failure changes nothing. On success the returned record has the next counter value as its id and the submitted fields, it is appended, and that id was never issued before and is larger than every stored id |
| LedgerDb.Database.GetTransactions | electron/db.ts:35-38 | the result holds exactly the stored rows, ordered by date descending then id descending |
| LedgerDb.Database.DeleteTransaction | electron/db.ts:55-59 | the result is true exactly when a row had the id (`changes > 0`). Afterwards no row has it, exactly that one row is gone, the others keep their order, and the counter is untouched |
| LedgerDb.Database.GetStats | electron/db.ts:61-81 | each total is the sum of the amounts of that type (0 when there are none), and the balance is income minus expenses |
| LedgerDb.ExampleTotals | electron/db.ts:61-81 | one income and one expense give those two amounts as totals |
| LedgerDb.ExampleListing | electron/db.ts:36 | a record dated later is listed before one dated earlier |
| LedgerDb.ExampleSession | electron/db.ts:40-81 | after initialising, adding an income of 100 and an expense of 40, the listing is the expense (id 2) then the income (id 1), and the stats are 100, 40, 60 |
| IsoDate.DigitTextOrder | electron/db.ts:36 | digit strings of the same length compare as text exactly as their numbers compare |
| IsoDate.TextLessConcat | electron/db.ts:36 | texts split at the same length compare by their first parts unless those are equal |
| IsoDate.IsoDateOrder | electron/db.ts:36 | for YYYY-MM-DD dates, text order is calendar order (year, then month, then day) |
| AddTransactionModal.CategoriesShape | src/components/AddTransactionModal.tsx:9-12 | 7 expense and 5 income categories; both include "Inne", neither includes the empty placeholder, and neither repeats an entry |
| AddTransactionModal.Form.constructor | src/components/AddTransactionModal.tsx:15-20 | the dialog opens on 'expense' with empty amount, category and description and today's date |
| AddTransactionModal.Form.ChooseExpense | src/components/AddTransactionModal.tsx:84-87 | the expense button sets the type and clears the category, and nothing else changes |
| AddTransactionModal.Form.ChooseIncome | src/components/AddTransactionModal.tsx:97-100 | the income button sets the type and clears the category, and nothing else changes |
| AddTransactionModal.Form.ChooseCategory | src/components/AddTransactionModal.tsx:136-147 | the select takes the placeholder or one of the current type's categories |
| AddTransactionModal.Form.EditAmount | src/components/AddTransactionModal.tsx:122 | the amount field takes the raw text, and nothing else changes |
| AddTransactionModal.Form.EditDate | src/components/AddTransactionModal.tsx:157 | the date field takes the new value, and nothing else changes |
| AddTransactionModal.Form.EditDescription | src/components/AddTransactionModal.tsx:167 | the description takes the new text, and nothing else changes |
| AddTransactionModal.Form.HandleSubmit | src/components/AddTransactionModal.tsx:22-37 | nothing is submitted exactly when the amount or the category is empty. Otherwise the submitted record is the form's state with the amount parsed, and it has a valid type and one of that type's categories |
| AddTransactionModal.Form.SwitchTypeThenSubmit | src/components/AddTransactionModal.tsx:84-100 | right after either type button, submitting is refused |
| App.Find | src/App.tsx:90 | `find` returns nothing exactly when no record has the id; otherwise it returns the first record carrying the id |
| App.Recent | src/App.tsx:135 | `slice(0, 5)` returns the first min(5, n) records |
| App.AddKeepsTotals | src/App.tsx:50-72 | prepending a record and moving the totals by its amount equals recomputing the totals |
| App.DeleteKeepsTotals | src/App.tsx:87-107 | with distinct ids, filtering an id out and taking back the found record's amount equals recomputing the totals |
| App.DeleteWithSharedIdDrifts | src/App.tsx:87-107 | with two records sharing id 1, both are filtered out but only one amount is taken back, so the totals drift |
| App.LoadedStateConsistent | src/App.tsx:33-38 | the totals over the loaded listing equal the database's stats, so the loaded state is consistent |
| App.DashboardShowsNewest | src/App.tsx:134-135 | over a listing, every record on the dashboard comes before every record left out |
| App.AppState.constructor | src/App.tsx:10-17 | the state starts with no transactions and zero totals, which is consistent |
| App.AppState.HandleAddTransaction | src/App.tsx:50-76 | the new record, with id `Date.now()`, goes in front and the totals move by its amount. This keeps stats equal to the recomputed totals, and it keeps ids distinct when the new id is unused |
| App.AppState.HandleDeleteTransaction | src/App.tsx:87-110 | an unknown id changes nothing. Otherwise every record with the id is filtered out and the first match's amount is taken back. Afterwards no record has the id, and consistency with distinct ids is preserved |
| App.AppState.DashboardTransactions | src/App.tsx:135 | the dashboard gets the first min(5, n) transactions: all of them when there are fewer than 5 |
| App.AppState.SubmitAddDialog | src/App.tsx:227-232 | a refused submit changes nothing. An accepted one puts in front the form's record (amount parsed, type, category, date, description) under id `now`, and moves the totals by its amount. Either way the totals stay consistent |

## Left out

- The Electron-mode branches of `handleAddTransaction` and `handleDeleteTransaction` call the database over IPC and then reload. `loadData` with its `Promise.all`, its try/catch and the loading flag is asynchronous I/O. `LoadedStateConsistent` states what the reload yields instead.
- electron/main.ts, the IPC handlers and the preload scripts only forward calls and are not part of this model.
- The Dashboard, TransactionList and Analysis components, and all rendering, styling and navigation, are left out.
- `alert`, `console.log`, `e.preventDefault()` and opening or closing the dialog are user-interface effects and are left out.
- The database file path, `app.getPath` and `console.log` are left out. When they succeed, `mkdirSync` and the two indexes on `date` and `type` do not change any result of the modelled statements.
- LedgerDb.Database.InitDatabase always succeeds in the model. The source can throw while creating the user-data directory, opening `budget.db` (a locked or corrupt file) or running the schema statement (electron/db.ts:13-30). Those failures are not modelled.
- Floating-point arithmetic is left out: amounts are exact reals. With JavaScript doubles, `(S + a) - a` can differ from `S` and SQL's floating `SUM` depends on the order of the rows, so `AppState`'s consistency invariant and `SumOfKindPermutation` hold only for exact amounts. `parseFloat` is a parameter, so NaN and the `NOT NULL` constraint on `amount` are not modelled.
- `Date.now()` and today's date are parameters. Clock collisions that give two records the same id are not modelled; `DeleteWithSharedIdDrifts` shows what they would cause.
- LedgerDb.Database.AddTransaction: when the type is invalid and the counter is full at once, only "some error" is stated. Which error SQLite reports first is not modelled.
- LedgerDb.Database.AddTransaction, GetTransactions, DeleteTransaction and GetStats require `initDatabase` to have run. Without it the source fails with a TypeError on an unset connection, and that crash is not modelled.
- LedgerDb.Database.constructor takes the stored table as well formed (distinct ids up to the counter, valid types), as this program writes it. A file altered by other tools is not modelled.
- LedgerDb.Database.AddTransaction, and likewise GetTransactions, DeleteTransaction and GetStats: storage failures are not modelled. A full disk, an I/O error, or a read-only or locked file makes the statement throw (electron/db.ts:37, 51, 57 and 73-74). Also not modelled: `lastInsertRowid` and `id` reach JavaScript as numbers that are exact only up to 2^53, while the model counts ids exactly up to 2^63-1.
- The form's built-in constraint validation is not modelled. Chromium runs it before the submit event and blocks the submit when any of these hold: the amount is empty (`required`, src/components/AddTransactionModal.tsx:125), negative (`min="0"`, line 120) or off-step (`step="0.01"`, line 119), or the category is the empty placeholder (`required`, line 140). `HandleSubmit` is therefore modelled on every form state. Neither `handleSubmit` nor electron/db.ts checks the sign of an amount, so the model makes no claim that amounts are non-negative.
