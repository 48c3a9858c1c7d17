# Billing service: a Dafny model

This project models the billing service in `main.py`. The service is a FastAPI application over
one SQLite database with four tables: `company`, `items`, `bills` and `bill_items`. Each table has
an `INTEGER PRIMARY KEY AUTOINCREMENT` key and a `uuid` column. The model covers these parts:

- **The date validator of the `Bill` model** (`Bill.validate_date`). It parses the request date
  with `strptime("%Y-%m-%d")` and rewrites it with `strftime("%Y-%m-%d %H:%M:%S")`. Module `Dates`
  models the two `strptime` formats as CPython compiles them to regular expressions. It also models
  the zero-padded formatting. Module `Billing` holds `ValidateDate` and `NewBill`.
- **The POST endpoints.** `create_company` and `create_item` each make one INSERT. `create_bill`
  re-parses the date with `"%Y-%m-%d %H:%M:%S"` and answers 400 if that fails. Otherwise it
  computes `sum(quantity * rate)`, inserts the bill row, and then inserts one `bill_items` row per
  request line, with `bill_id = lastrowid`.
  - `Billing.AfterCreate*` states, as functions, the store each endpoint leaves behind.
  - Class `Service.BillingService` owns the store (`var db: Db`) and performs the endpoints by
    updating it. `StoreBill` keeps the source's loop over the request lines.
- **The GET endpoints** (`get_bill` and `get_item`). They are lookups by key on the same store:
  `Billing.GetBill` and `Billing.GetItem`.
- **SQLite tables** (module `Tables`). A table is modelled as its rows in insertion order plus the
  key the next INSERT receives.

The store invariant is `Billing.Consistent`:

- all keys are AUTOINCREMENT keys;
- every line row points at a stored bill;
- every bill's stored total is the sum of the amounts of its line rows.

All three POST endpoints keep it.

The validator's own error message names the format `YYYY-MM-DD`, but the code accepts more than
that strict shape, and the model follows the code. In CPython's `strptime`, `%m` and `%d` also
match a single digit, and `%d` also matches a space followed by one digit. So `"2024-1-5"` and
`"2024-01- 5"` are accepted and normalised to `"2024-01-05 00:00:00"`. `Dates.ParseDateSpellings` lists exactly the
spellings that are accepted.

The code trusts its request bodies, and the model follows the code:

- a bill line's rate is the client-supplied one; it is not looked up in `items`;
- nothing checks that a company or an item exists;
- nothing checks that a quantity is positive;
- a bad request date is rejected by the model validator, not with a 400 from `create_bill`.

The `uuid4()` values of each endpoint are parameters of the model: one for the company or item,
one for the bill, and one per line in `lineUuids`.

## Model

| member | source | states |
|---|---|---|
| Dates.ParseDate | main.py:114 | a date `strptime("%Y-%m-%d")` returns is a real calendar date (year 1..9999, a day the month has) |
| Dates.ParseDateTime | main.py:156 | a datetime `strptime("%Y-%m-%d %H:%M:%S")` returns has a real date, hour 0..23, minute and second 0..59 |
| Dates.ParseDateSpellings | main.py:114 | `strptime(s, "%Y-%m-%d")` yields `d` exactly when `d` is a real calendar date and `s` is a four-digit year, a month with or without its leading zero and a day with a leading zero, without one, or with a leading space |
| Dates.YearFieldPad4 | main.py:114 | a `%Y` field reads year `y` exactly when it is the four zero-padded digits of `y` |
| Dates.MonthFieldSpellings | main.py:114 | a `%m` field reads month `m` exactly when it is one of `m`'s spellings (`"07"`, `"7"`) |
| Dates.DayFieldSpellings | main.py:114 | a `%d` field reads day `d` exactly when it is one of `d`'s spellings (`"05"`, `"5"`, `" 5"`) |
| Dates.FormatDateTimeParses | main.py:156 | every datetime written with `"%Y-%m-%d %H:%M:%S"` (zero-padded) is read back as the same datetime |
| Dates.UnpaddedYearDoesNotParse | main.py:114 | when `%Y` is written without padding, every year below 1000 gives text the second format refuses |
| Dates.PaddedYear999Parses | main.py:114 | the first format accepts `"0999-01-01"` as 1 January 999 |
| Dates.UnpaddedYear999Text | main.py:114 | an unpadded `strftime` writes that date as `"999-01-01 00:00:00"` |
| Dates.UnpaddedYearCounterexample | main.py:114 | the first format accepts `"0999-01-01"` while the second format refuses the text an unpadded `strftime` writes for it |
| Tables.SelectById | main.py:189-190 | `SELECT … WHERE id = ?` plus `fetchone()` returns a stored row with that key, and returns nothing exactly when no row has it |
| Tables.InsertKeepsKeys | main.py:26-28 | an AUTOINCREMENT INSERT keeps keys positive and strictly increasing, puts the new key above every existing key, and leaves the old rows unchanged |
| Tables.InsertAllKeepsKeys | main.py:171-176 | the same holds for a sequence of INSERTs |
| Tables.InsertAllStep | main.py:171-176 | inserting one more element extends the sequence of INSERTs by exactly that one row |
| Tables.SelectAppend | main.py:189-190 | rows appended later do not change a lookup of a key that is already stored; a key not yet stored is looked up in the appended rows |
| Tables.SelectByKey | main.py:27 | under AUTOINCREMENT keys, a lookup of a stored row's key returns that row |
| Billing.LinesOfMembers | main.py:195-196 | `SELECT … FROM bill_items WHERE bill_id = ?` returns exactly the stored line rows carrying that bill id |
| Billing.GetBill | main.py:183-202 | 404 exactly when no bill has the key; otherwise the stored bill with that key, together with exactly the line rows carrying that key |
| Billing.GetItem | main.py:204-224 | 404 exactly when no item has the key; otherwise the id, item_name and rate of a stored item row with that key |
| Billing.ValidateDateIff | main.py:110-116 | the validator accepts `value` with result `r` exactly when `value` spells a real calendar date `d` and `r` is `d` zero-padded at `00:00:00` |
| Billing.ValidateDateRejects | main.py:115-116 | any other text fails with `"Incorrect date format. Expected YYYY-MM-DD."` |
| Billing.NormalisedDateReparses | main.py:114 | the validator's output parses under `"%Y-%m-%d %H:%M:%S"` as the midnight of the validated date, and sqlite3 stores that datetime as the same text |
| Billing.ValidatedBillParses | main.py:155-158 | a bill built through the validator never reaches the 400 branch of `create_bill`, and its stored date equals its validated date |
| Billing.UnpaddedValidatorReaches400 | main.py:114 | with an unpadded `%Y`, the validator accepts `"0999-01-01"` as `"999-01-01 00:00:00"`, which `create_bill` then refuses |
| Billing.NewLinesPrefix | main.py:171-176 | a prefix of the inserted line rows is what inserting the prefix of the request lines appends |
| Billing.NewLinesSumToTotal | main.py:160-176 | the amounts of the inserted line rows add up to the total stored on the bill |
| Billing.LinesOfAppend | main.py:195-196 | selecting by bill_id distributes over appended rows |
| Billing.LinesOfOneBill | main.py:174-176 | rows that all carry one bill_id are selected whole by that id |
| Billing.LinesOfNewLines | main.py:171-176 | the line rows of one `create_bill` are selected exactly by its bill's key, and by no other key |
| Billing.LinesOfNone | main.py:195-196 | no rows are selected for a bill_id that no row carries |
| Billing.CreateCompanyKeepsConsistency | main.py:121-132 | `create_company` keeps the store invariant |
| Billing.CreateItemKeepsConsistency | main.py:135-146 | `create_item` keeps the store invariant |
| Billing.NoLinesForNextBill | main.py:164-168 | in a consistent store, no line row carries the key the next bill will receive |
| Billing.CreateBillKeepsConsistency | main.py:160-177 | `create_bill` keeps the store invariant (every bill's total is the sum of its lines' amounts), whatever ids, quantities and rates the request carries |
| Billing.CreateBillLinesHaveBills | main.py:164-176 | after `create_bill` every line row, old or new, carries the key of a stored bill |
| Billing.CreateBillTotalOf | main.py:160-176 | after `create_bill` each bill's total, old or new, is the sum of the amounts of its line rows |
| Billing.CreateBillAppendsOnly | main.py:164-177 | `create_bill` touches neither `company` nor `items`; it keeps the old bill and line rows and appends one bill row and one line row per request line, with keys above the old ones |
| Billing.CreateBillStoresRequest | main.py:164-176 | the new bill row has the next key and the request's sl_number, company_id and stored date; line k has that bill id, the request's item_id and quantity, and amount = quantity * rate |
| Billing.SummaryOfNewLines | main.py:171-176 | the (item_id, quantity, amount) of the inserted line rows are those of the request lines, in order |
| Billing.GetBillOfNewBill | main.py:189-196 | `get_bill` on the new key returns the new bill row and exactly the new line rows |
| Billing.GetBillAfterCreateBill | main.py:160-201 | `get_bill` on the new key returns the request's total, which equals the sum of the returned amounts; the lines match the request lines in order; an empty request gives total 0 and no lines |
| Billing.GetBillOtherAfterCreateBill | main.py:189-196 | `create_bill` does not change what `get_bill` returns for any other key |
| Billing.GetBillTotalIsSumOfLines | main.py:189-201 | in a consistent store, every bill `get_bill` returns has a total equal to the sum of the returned lines' amounts |
| Billing.GetItemAfterCreateItem | main.py:139-146 | `get_item` on the key `create_item` just used returns the item_name and rate as stored; every other key answers as before |
| Billing.GetItemOfStoredRow | main.py:210-224 | `get_item` on the key of any stored item returns that row's item_name and rate |
| Billing.GetItemEmpty | main.py:216-217 | on an empty store `get_item` answers 404 |
| Billing.EmptyDbConsistent | main.py:20-76 | the empty tables `init_db` creates on a fresh `billing.db` satisfy the store invariant |
| Service.BillingService.constructor | main.py:20-80 | on a fresh `billing.db` the service starts with the four empty tables, and the invariant holds |
| Service.BillingService.CreateCompany | main.py:121-132 | appends the company verbatim under the next key, answers its uuid, and keeps the invariant |
| Service.BillingService.CreateItem | main.py:135-146 | appends the item verbatim, answers its uuid, keeps the invariant; `get_item` on the new key returns what was stored |
| Service.BillingService.CreateBill | main.py:149-180 | if the date does not parse, it answers 400 `"Invalid date format. Use YYYY-MM-DD."` and leaves the store unchanged; otherwise it answers the bill uuid, the new store is `AfterCreateBill` of the old store with the stored date, and the invariant holds |
| Service.BillingService.StoreBill | main.py:160-176 | the bill INSERT followed by the loop of line INSERTs yields exactly `AfterCreateBill` |

## Left out

- HTTP and FastAPI: routing, status codes and JSON bodies are not modelled. Responses are
  datatypes, and a validator failure is an `Err` value (FastAPI would answer 422).
- Request parsing by pydantic: type coercion of the JSON fields is not modelled. The model starts
  from typed values.
- SQLite: connections, `commit` and `close` are not modelled. Each endpoint runs as one atomic
  step on the in-memory store.
- Restarts: `init_db` runs `CREATE TABLE IF NOT EXISTS` on the file `billing.db` (main.py:14-80).
  On any start after the first, the tables keep the rows and AUTOINCREMENT counters of earlier
  runs. The constructor models only the first start, on a fresh file. A file written only by
  earlier runs of this code is still `Consistent`: that follows from `Billing.EmptyDbConsistent`
  and the three preservation lemmas, but no lemma states it for a sequence of runs.
- SQLite constraints: the `UNIQUE` constraint on `uuid` is not modelled; uuids are parameters and
  their uniqueness is not assumed. Foreign keys are not enforced, as in SQLite's default.
- AUTOINCREMENT: the key overflow at 2^63−1 is not modelled.
- SQLite's 64-bit integer binding: sqlite3 raises `OverflowError` for a Python int outside
  [-2^63, 2^63-1]. The source then answers 500 and commits nothing. It applies to `sl_number` and
  `company_id` (main.py:164-167), each line's `item_id` and `quantity` (main.py:173-176), and the
  `bill_id` and `item_id` path parameters (main.py:189, 195, 210). The model's integers are
  unbounded: `AfterCreateBill` stores such values and `GetBill` / `GetItem` answer `BillNotFound` /
  `ItemNotFound` for them.
- `uuid4()` randomness: uuids are parameters of each operation.
- Billing.Amount: `quantity * rate` is an exact product of reals; the float rounding of Python's
  multiplication and the 64-bit range SQLite stores the quantity in are not modelled.
- Billing.Total: the sum is exact, so the stored total equals the sum of the stored amounts.
  Float summation is not modelled: since Python 3.12, `sum()` over floats is compensated
  (Neumaier), so a plain re-sum of the stored amounts can differ from the total in the last bits.
- `\d` in CPython's `strptime` also matches non-ASCII Unicode digits; only ASCII digits are
  modelled. The whitespace matched by `\s+` is modelled as Python's set of Unicode space code
  points.
- `fetchall()` order: SQLite does not promise an order for `SELECT … WHERE bill_id = ?`. The model
  returns rows in insertion order, which is what a table scan gives.
- `get_item` is `async` in the source; concurrency is not modelled.
- `home.py` is not part of this model.
- Server-side hardening that the code does not implement is not modelled: looking a line's rate up
  from `items`, answering 404 for an unknown item or company, and answering 400 for a
  non-positive quantity.

## Findings

| source | as written | input that shows it | evidently intended | confidence | as-written member | corrected member |
|---|---|---|---|---|---|---|
| main.py:114 | the validator writes the year with `strftime("%Y")`. On glibc, under CPython versions that pass `%Y` to the C library, a year below 1000 is written without zero padding. `create_bill` then re-parses the text with `%Y` = exactly four digits. | `"0999-01-01"` is accepted and normalised to `"999-01-01 00:00:00"`; `create_bill` then answers 400 | every validated date re-parses in `create_bill`, so its 400 branch is unreachable. This holds when the year is written zero-padded to four digits. | medium: depends on the platform and the Python version; not executed | Billing.UnpaddedValidatorReaches400 | Billing.NormalisedDateReparses |
