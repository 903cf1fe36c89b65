/**
 * The in-memory budget ledger of the expense tracker: an append-only list of
 * transactions with an ID counter, totals by transaction type, and the rows
 * the CSV export writes.
 *
 * Amounts are exact `real`s where the program uses float64; the clock, the
 * date formatting and the two-decimal amount formatting are parameters.
 */
module BudgetLedger {

  import opened DecimalText

  /** An instant read from the clock when a transaction is recorded; its representation is not modelled. */
  type Timestamp

  /** One recorded income or expense event. `kind` is the program's `Type` field. */
  datatype Transaction = Transaction(id: int, amount: real, category: string, date: Timestamp, kind: string)
  {
    function GetAmount(): real { amount }
    function GetType(): string { kind }
  }

  /** The arguments of one AddTransaction call, with the clock reading it takes. */
  datatype AddRequest = AddRequest(amount: real, category: string, date: Timestamp, kind: string)

  /** The record AddTransaction builds for a request when the counter stands at `id`. */
  function Stamp(id: int, req: AddRequest): Transaction
  {
    Transaction(id, req.amount, req.category, req.date, req.kind)
  }

  /** The ledger contents after the given AddTransaction calls, starting from the empty tracker. */
  function Replay(calls: seq<AddRequest>): seq<Transaction>
  {
    if calls == [] then []
    else
      var n := |calls| - 1;
      Replay(calls[..n]) + [Stamp(n, calls[n])]
  }

  /** IDs are 0-based insertion ranks. */
  ghost predicate Numbered(s: seq<Transaction>)
  {
    forall i :: 0 <= i < |s| ==> s[i].id == i
  }

  /** N calls give exactly N transactions, the i-th carrying ID i and the fields of the i-th call. */
  lemma {:induction false} ReplayRecords(calls: seq<AddRequest>)
    ensures |Replay(calls)| == |calls|
    ensures forall i :: 0 <= i < |calls| ==> Replay(calls)[i] == Stamp(i, calls[i])
    ensures Numbered(Replay(calls))
  {
    if calls != [] {
      ReplayRecords(calls[..|calls| - 1]);
    }
  }

  // ---------------------------------------------------------------------------
  // Totals

  /** What one transaction adds to the total of the given type: exact, case-sensitive match. */
  function Contribution(t: Transaction, kind: string): real
  {
    if t.GetType() == kind then t.GetAmount() else 0.0
  }

  /** Sum of the amounts of the transactions whose type is exactly `kind`. */
  function Total(s: seq<Transaction>, kind: string): real
  {
    if s == [] then 0.0 else Contribution(s[0], kind) + Total(s[1..], kind)
  }

  /** Sum of all amounts, whatever their type. */
  function SumAmounts(s: seq<Transaction>): real
  {
    if s == [] then 0.0 else s[0].amount + SumAmounts(s[1..])
  }

  lemma {:induction false} TotalConcat(a: seq<Transaction>, b: seq<Transaction>, kind: string)
    ensures Total(a + b, kind) == Total(a, kind) + Total(b, kind)
  {
    if a != [] {
      assert (a + b)[1..] == a[1..] + b;
      TotalConcat(a[1..], b, kind);
    } else {
      assert a + b == b;
    }
  }

  /** Appending a transaction adds its amount to the total of its own type and leaves every other total unchanged. */
  lemma TotalAppend(s: seq<Transaction>, t: Transaction, kind: string)
    ensures t.kind == kind ==> Total(s + [t], kind) == Total(s, kind) + t.amount
    ensures t.kind != kind ==> Total(s + [t], kind) == Total(s, kind)
  {
    TotalConcat(s, [t], kind);
  }

  /** With no transaction of the type (in particular on an empty ledger) the total is zero. */
  lemma {:induction false} TotalWithoutMatches(s: seq<Transaction>, kind: string)
    requires forall i :: 0 <= i < |s| ==> s[i].kind != kind
    ensures Total(s, kind) == 0.0
  {
    if s != [] {
      TotalWithoutMatches(s[1..], kind);
    }
  }

  /** The match is case-sensitive: an "INCOME" transaction does not count towards "income". */
  lemma CaseSensitiveTotal(s: seq<Transaction>, t: Transaction)
    requires t.kind == "INCOME"
    ensures Total(s + [t], "income") == Total(s, "income")
    ensures Total(s + [t], "INCOME") == Total(s, "INCOME") + t.amount
  {
    TotalAppend(s, t, "income");
    TotalAppend(s, t, "INCOME");
  }

  /** When every transaction is of one of two distinct types, their two totals add up to the sum of all amounts. */
  lemma {:induction false} TwoTypesCoverAll(s: seq<Transaction>, k1: string, k2: string)
    requires k1 != k2
    requires forall i :: 0 <= i < |s| ==> s[i].kind == k1 || s[i].kind == k2
    ensures Total(s, k1) + Total(s, k2) == SumAmounts(s)
  {
    if s != [] {
      TwoTypesCoverAll(s[1..], k1, k2);
    }
  }

  /**
   * The totals of two distinct types never exceed the sum of all amounts
   * when the records of every other type have non-negative amounts.
   */
  lemma {:induction false} TwoTypesBounded(s: seq<Transaction>, k1: string, k2: string)
    requires k1 != k2
    requires forall i :: 0 <= i < |s| && s[i].kind != k1 && s[i].kind != k2 ==> s[i].amount >= 0.0
    ensures Total(s, k1) + Total(s, k2) <= SumAmounts(s)
  {
    if s != [] {
      TwoTypesBounded(s[1..], k1, k2);
    }
  }

  /** The income and expense totals the menu shows partition the ledger when no other type was entered. */
  lemma IncomeAndExpenseCoverAll(s: seq<Transaction>)
    requires forall i :: 0 <= i < |s| ==> s[i].kind == "income" || s[i].kind == "expense"
    ensures Total(s, "income") + Total(s, "expense") == SumAmounts(s)
  {
    TwoTypesCoverAll(s, "income", "expense");
  }

  /** Three additions: salary income, food expense and a "gift" that only its own total sees. */
  lemma ThreeAdditionsTotals(now: Timestamp)
    ensures var s := Replay([AddRequest(100.0, "Salary", now, "income"),
                             AddRequest(42.505, "Food", now, "expense"),
                             AddRequest(10.0, "Food", now, "gift")]);
            |s| == 3 && s[0].id == 0 && s[1].id == 1 && s[2].id == 2 &&
            Total(s, "income") == 100.0 && Total(s, "expense") == 42.505 &&
            Total(s, "gift") == 10.0 && Total(s, "INCOME") == 0.0
  {
    var calls := [AddRequest(100.0, "Salary", now, "income"),
                  AddRequest(42.505, "Food", now, "expense"),
                  AddRequest(10.0, "Food", now, "gift")];
    ReplayRecords(calls);
    var s := Replay(calls);
    assert s == [Stamp(0, calls[0]), Stamp(1, calls[1]), Stamp(2, calls[2])];
    assert s[1..] == [s[1], s[2]] && s[1..][1..] == [s[2]] && [s[2]][1..] == [];
    forall k: string
      ensures Total(s, k) == Contribution(s[0], k) + Contribution(s[1], k) + Contribution(s[2], k)
    {
      assert Total([s[2]], k) == Contribution(s[2], k) + Total([], k);
    }
  }

  // ---------------------------------------------------------------------------
  // CSV export rows

  type Row = seq<string>

  const Header: Row := ["ID", "Amount", "Category", "Date", "Type"]

  /**
   * The record written for one transaction. `amountText` stands for the
   * two-decimal formatting and `dateText` for the YYYY-MM-DD formatting.
   * Its five fields follow the header; the ID field reads back as the ID.
   */
  function DataRow(t: Transaction, amountText: real -> string, dateText: Timestamp -> string): (r: Row)
    ensures |r| == |Header|
    ensures ParseDecimal(r[0]) == Some(t.id)
    ensures r[2] == t.category && r[4] == t.kind
  {
    ItoaRoundTrip(t.id);
    [Itoa(t.id), amountText(t.amount), t.category, dateText(t.date), t.kind]
  }

  /** The records written for a ledger: the header, then one record per transaction. */
  function ExportRecords(s: seq<Transaction>, amountText: real -> string, dateText: Timestamp -> string): (r: seq<Row>)
    ensures |r| == |s| + 1 && r[0] == Header
  {
    if s == [] then [Header]
    else ExportRecords(s[..|s| - 1], amountText, dateText) + [DataRow(s[|s| - 1], amountText, dateText)]
  }

  /** After the header, the transactions' records in ledger order. */
  lemma {:induction false} ExportShape(s: seq<Transaction>, amountText: real -> string, dateText: Timestamp -> string)
    ensures forall i :: 0 <= i < |s| ==>
              ExportRecords(s, amountText, dateText)[i + 1] == DataRow(s[i], amountText, dateText)
  {
    if s != [] {
      ExportShape(s[..|s| - 1], amountText, dateText);
    }
  }

  /**
   * Each data record has five fields; reading back its ID field gives the
   * transaction's ID, and the category and type fields are the raw strings.
   * On a ledger built by AddTransaction the ID read back from record i + 1 is i.
   */
  lemma ExportFields(s: seq<Transaction>, amountText: real -> string, dateText: Timestamp -> string, i: int)
    requires 0 <= i < |s|
    ensures var row := ExportRecords(s, amountText, dateText)[i + 1];
            |row| == 5 && ParseDecimal(row[0]) == Some(s[i].id) &&
            row[1] == amountText(s[i].amount) && row[2] == s[i].category &&
            row[3] == dateText(s[i].date) && row[4] == s[i].kind
    ensures Numbered(s) ==> ParseDecimal(ExportRecords(s, amountText, dateText)[i + 1][0]) == Some(i)
  {
    ExportShape(s, amountText, dateText);
    ItoaRoundTrip(s[i].id);
  }

  /** Why SavetoCSV can fail: os.Create refused the file name. */
  datatype SaveError = CreateFailed(filename: string)

  // ---------------------------------------------------------------------------
  // The tracker

  class BudgetTracker {
    var transactions: seq<Transaction>
    var nextID: int
    /** The AddTransaction calls made so far, in order. */
    ghost var requests: seq<AddRequest>

    /** The ledger holds exactly what the calls so far recorded, and the counter is their number. */
    ghost predicate Valid()
      reads this
      ensures Valid() ==> nextID == |transactions| && Numbered(transactions)
    {
      ReplayRecords(requests);
      transactions == Replay(requests) && nextID == |requests|
    }

    /** The zero value BudgetTracker{}: no transactions, counter at 0. */
    constructor ()
      ensures transactions == [] && nextID == 0 && requests == []
      ensures Valid()
    {
      transactions := [];
      nextID := 0;
      requests := [];
    }

    /**
     * Records a transaction stamped with the current counter and the clock
     * reading `now`, appends it, and increments the counter. Earlier
     * transactions are unchanged.
     */
    method AddTransaction(amount: real, category: string, kind: string, now: Timestamp)
      modifies this
      ensures transactions == old(transactions) + [Transaction(old(nextID), amount, category, now, kind)]
      ensures nextID == old(nextID) + 1
      ensures requests == old(requests) + [AddRequest(amount, category, now, kind)]
      ensures old(Valid()) ==> Valid()
    {
      var newTransaction := Transaction(nextID, amount, category, now, kind);
      transactions := transactions + [newTransaction];
      nextID := nextID + 1;
      requests := requests + [AddRequest(amount, category, now, kind)];
      assert requests[..|requests| - 1] == old(requests);
    }

    /** Sums, in one scan, the amounts of the transactions whose type is exactly `kind`; changes nothing. */
    method CalculateTotal(kind: string) returns (total: real)
      ensures total == Total(transactions, kind)
    {
      total := 0.0;
      var i := 0;
      while i < |transactions|
        invariant 0 <= i <= |transactions|
        invariant total == Total(transactions[..i], kind)
      {
        var transaction := transactions[i];
        assert transactions[..i + 1] == transactions[..i] + [transaction];
        TotalAppend(transactions[..i], transaction, kind);
        if transaction.kind == kind {
          total := total + transaction.amount;
        }
        i := i + 1;
      }
      assert transactions[..i] == transactions;
    }

    /**
     * Writes the CSV export. When the file cannot be created (`creatable` is
     * false) it reports the error and writes nothing; otherwise `file` holds
     * the records written, the header first and then one per transaction.
     */
    method SavetoCSV(filename: string, creatable: bool, amountText: real -> string, dateText: Timestamp -> string)
      returns (err: Option<SaveError>, file: seq<Row>)
      ensures !creatable ==> err == Some(CreateFailed(filename)) && file == []
      ensures creatable ==> err == None && file == ExportRecords(transactions, amountText, dateText)
    {
      if !creatable {
        return Some(CreateFailed(filename)), [];
      }
      file := [Header];
      var i := 0;
      while i < |transactions|
        invariant 0 <= i <= |transactions|
        invariant file == ExportRecords(transactions[..i], amountText, dateText)
      {
        var t := transactions[i];
        var record := [Itoa(t.id), amountText(t.amount), t.category, dateText(t.date), t.kind];
        assert transactions[..i + 1][..i] == transactions[..i];
        file := file + [record];
        i := i + 1;
      }
      assert transactions[..i] == transactions;
      err := None;
    }
  }
}
