# Budget tracker ledger, in Dafny

This project models the core of a small Go command-line budget tracker (`main.go`). The core is `BudgetTracker`. It keeps an append-only list of `Transaction` records and an ID counter. It totals the amounts of one transaction type, and it builds the rows of a CSV export.

- `budget_tracker.dfy`, module `BudgetLedger`:
  - `Transaction` is a datatype. Its `GetAmount`/`GetType` accessors are members of that datatype.
  - `BudgetTracker` is a class with fields `transactions: seq<Transaction>` and `nextID: int`, plus a ghost history `requests` of the `AddTransaction` calls made so far.
  - `AddTransaction` mutates the tracker in place. `CalculateTotal` and `SavetoCSV` are read-only methods with loops, each proved against a specification function (`Total`, `ExportRecords`).
  - `Replay` gives the ledger after any sequence of calls, starting from the zero-value tracker.
- `decimal_text.dfy`, module `DecimalText`: models `strconv.Itoa`, which produces the ID column. It also has a parser partner `ParseDecimal`, used to state that the rendering can be read back.

Modelling choices:
- Amounts are exact `real`s where the program uses `float64`.
- The clock reading (`time.Now()`) is a parameter `now` of `AddTransaction`, of an opaque type `Timestamp`.
- The two-decimal amount formatting and the `YYYY-MM-DD` date formatting are function parameters (`amountText`, `dateText`) of the export.
- Whether `os.Create` succeeds is a parameter `creatable` of `SavetoCSV`.
- The records handed to the CSV writer are returned as the method's `file` output.

One might expect the income and expense totals never to exceed the sum of all amounts. The code accepts any amount, negative ones included. The two totals plus the amounts of all other types make up the sum, so the bound holds exactly when those other amounts add up to a non-negative value. `TwoTypesBounded` proves it when every record of another type has a non-negative amount; income and expense amounts may be anything.

## Model

| member | source | states |
|---|---|---|
| BudgetLedger.Transaction.GetAmount | main.go:33-35 | the accessor yields the record's amount; `Total` reads amounts only through it (properties in the `Total` lemmas) |
| BudgetLedger.Transaction.GetType | main.go:37-39 | the accessor yields the record's type; `Total` matches types only through it (properties in the `Total` lemmas) |
| BudgetLedger.Stamp | main.go:43-49 | the record built for one call: ID from the counter, the given amount, category and type, and the clock reading; `ReplayRecords` and `AddTransaction` state what it produces |
| BudgetLedger.BudgetTracker.constructor | main.go:107 | the zero-value tracker has no transactions, a counter of 0, and satisfies the ledger invariant |
| BudgetLedger.BudgetTracker.Valid | main.go:21-24 | the ledger invariant: the contents are the replay of the calls made so far and the counter is their number; this implies `nextID == |transactions|` and that every ID equals its index |
| BudgetLedger.BudgetTracker.AddTransaction | main.go:42-52 | the new record has ID = old counter and exactly the given amount, category, clock reading and type; it is appended at the end with all earlier records unchanged; the counter grows by exactly one; the invariant is preserved |
| BudgetLedger.ReplayRecords | main.go:42-52 | after N calls from the empty tracker there are exactly N transactions, and the i-th has ID i and the fields of the i-th call (insertion order = ledger order) |
| BudgetLedger.BudgetTracker.CalculateTotal | main.go:67-75 | the scan returns the sum of the amounts whose type equals the argument exactly; it has no `modifies` clause, so the ledger is unchanged |
| BudgetLedger.Contribution | main.go:70-71 | what one record adds to a total: its amount on an exact type match, else 0; `TotalAppend` and `CaseSensitiveTotal` state its effect |
| BudgetLedger.Total | main.go:67-75 | the filtered sum that `CalculateTotal` is proved equal to; its properties are `TotalConcat`, `TotalAppend`, `TotalWithoutMatches`, `TwoTypesCoverAll` and `TwoTypesBounded` |
| BudgetLedger.TotalConcat | main.go:67-75 | the total of a concatenation is the sum of the totals of its parts |
| BudgetLedger.TotalAppend | main.go:69-72 | appending a record of type t adds its amount to the total for t; appending a record of any other type leaves that total unchanged |
| BudgetLedger.TotalWithoutMatches | main.go:68-74 | with no record of the type (in particular an empty ledger) the total is 0 |
| BudgetLedger.CaseSensitiveTotal | main.go:70 | an "INCOME" record does not change the "income" total, only the "INCOME" total |
| BudgetLedger.TwoTypesCoverAll | main.go:67-75 | if every record has one of two distinct types, the two totals add up to the sum of all amounts |
| BudgetLedger.TwoTypesBounded | main.go:67-75 | when every record of any other type has a non-negative amount, the totals of two distinct types never exceed the sum of all amounts (the two types' own amounts are unconstrained) |
| BudgetLedger.IncomeAndExpenseCoverAll | main.go:67-75 | when only "income" and "expense" were entered, the totals for those two types (the calls at main.go:143 and main.go:147) add up to the sum of all amounts |
| BudgetLedger.ThreeAdditionsTotals | main.go:42-75 | after adding salary income 100, food expense 42.505 and a 10 "gift", the IDs are 0, 1, 2; the income total is 100, expense 42.505, gift 10 and "INCOME" 0 |
| BudgetLedger.ExportRecords | main.go:88-99 | the export has n + 1 records, with the header `ID, Amount, Category, Date, Type` first |
| BudgetLedger.DataRow | main.go:91-97 | the record of one transaction has as many fields as the header; its ID field reads back as the transaction's ID; the category and type fields are the raw strings |
| BudgetLedger.ExportShape | main.go:90-99 | record i + 1 is the record of transaction i, in ledger order |
| BudgetLedger.ExportFields | main.go:91-97 | each data record has 5 fields; its ID field reads back as the transaction's ID (as i on a ledger built by AddTransaction); fields 2 and 4 are the raw category and type; fields 1 and 3 are the amount and date renderings |
| BudgetLedger.BudgetTracker.SavetoCSV | main.go:77-104 | if the file cannot be created, it returns the create error and writes no record; otherwise it returns no error and writes exactly the export records of the current ledger |
| DecimalText.Itoa | main.go:92 | the base-10 text is non-empty and unpadded: a leading '0' only for zero, all digits for non-negative numbers, and for negatives a '-' sign followed by digits that do not start with '0'; `ItoaRoundTrip` and `ItoaInjective` state that it reads back |
| DecimalText.NatText | main.go:92 | the rendering is a non-empty string of decimal digits, and it starts with '0' only for zero |
| DecimalText.NatTextValue | main.go:92 | the digits read back as the number they render |
| DecimalText.ItoaRoundTrip | main.go:92 | reading back the base-10 text of any integer gives that integer |
| DecimalText.ItoaInjective | main.go:92 | distinct IDs get distinct ID texts |

## Left out

- The interactive menu loop and its `fmt.Scanln` input handling (main.go:106-168) are interactive I/O. The only part kept is the zero-value tracker that the loop starts from.
- `DisplayTransaction` (main.go:55-64) only prints to standard output.
- The `FinancialRecord` interface (main.go:27-39) is a trivial accessor wrapper. The accessors themselves are `Transaction.GetAmount` and `Transaction.GetType`.
- `float64` arithmetic and rounding (main.go:14, 68-71) are left out. Amounts are exact reals, so the totals are exact sums.
- `fmt.Sprintf("%.2f", …)` (main.go:93) and `Date.Format("2006-01-02")` (main.go:95) belong to formatting libraries. They appear only as the opaque parameters `amountText` and `dateText`.
- `time.Now()` (main.go:47) is a clock. Its reading is the parameter `now`.
- File creation, closing and the `encoding/csv` writer (main.go:78-86, 98) are file I/O. The model keeps only whether creation succeeds and the records handed to the writer. Field quoting (section 2 of RFC 4180) happens inside `encoding/csv` and is not modelled.
- Errors from `writer.Write` and `writer.Flush` are never checked by the program, so it returns nil even when a write fails. The model likewise reports success once the file is created. Write failures are not modelled.
- The "Transaction Saved to" message (main.go:101) is console output.
- BudgetLedger.BudgetTracker.AddTransaction: Go's `int` (32 or 64 bits by platform) wraps to a negative value once `nextID` passes its maximum, so a later record would get a negative ID; the model's counter is unbounded.
