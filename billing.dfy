/**
 * The billing service of main.py over its four tables (company, items, bills, bill_items):
 * the request models and the date validator of the Bill model, the store each POST endpoint
 * leaves behind, the GET endpoints as queries, and what is proved about them.
 */
module Billing {
  import opened Wrappers
  import opened Dates
  import opened Tables

  // ---------------------------------------------------------------------
  // Request bodies. Company and Item are also the columns their tables store.
  // ---------------------------------------------------------------------

  datatype Company = Company(name: string, address: string, phone: string, city: string, state: string, zipcode: string)

  datatype Item = Item(itemName: string, rate: real)

  /** One line of a bill request; the rate comes from the client and is not looked up. */
  datatype BillItem = BillItem(quantity: int, itemId: int, rate: real)

  /** A bill request after the date validator has rewritten its date. */
  datatype Bill = Bill(date: string, slNumber: int, companyId: int, billItems: seq<BillItem>)

  // ---------------------------------------------------------------------
  // The store
  // ---------------------------------------------------------------------

  /** The columns of bills after id and uuid. */
  datatype BillCols = BillCols(date: string, slNumber: int, companyId: int, total: real)

  /** The columns of bill_items after id and uuid; the table has no rate column. */
  datatype LineCols = LineCols(billId: int, quantity: int, itemId: int, amount: real)

  datatype Db = Db(
    companies: Table<Company>,
    items: Table<Item>,
    bills: Table<BillCols>,
    billItems: Table<LineCols>)

  /** The four tables as init_db creates them in a fresh billing.db. */
  function EmptyDb(): Db {
    Db(EmptyTable(), EmptyTable(), EmptyTable(), EmptyTable())
  }

  // ---------------------------------------------------------------------
  // Responses
  // ---------------------------------------------------------------------

  datatype CreateBillOutcome = BillCreated(billUuid: string) | BadRequest(detail: string)

  /** get_bill: 404 "Bill not found", or the bill row with its line rows. */
  datatype BillResponse = BillNotFound | BillFound(bill: Row<BillCols>, billItems: seq<Row<LineCols>>)

  /** get_item: 404 "Item not found", or the id, item_name and rate of the row. */
  datatype ItemResponse = ItemNotFound | ItemFound(id: int, itemName: string, rate: real)

  const DateFormatError := "Incorrect date format. Expected YYYY-MM-DD."

  const InvalidDateDetail := "Invalid date format. Use YYYY-MM-DD."

  // ---------------------------------------------------------------------
  // The date validator and the Bill model
  // ---------------------------------------------------------------------

  /** Bill.validate_date: parse with "%Y-%m-%d", write back with "%Y-%m-%d %H:%M:%S". */
  function ValidateDate(value: string): Result<string, string> {
    match ParseDate(value)
    case Some(d) => Ok(FormatDateTime(Midnight(d)))
    case None => Err(DateFormatError)
  }

  /** Building the Bill model from a request body, which runs the date validator. */
  function NewBill(date: string, slNumber: int, companyId: int, billItems: seq<BillItem>): Result<Bill, string> {
    match ValidateDate(date)
    case Ok(normalised) => Ok(Bill(normalised, slNumber, companyId, billItems))
    case Err(e) => Err(e)
  }

  // ---------------------------------------------------------------------
  // Amounts and totals
  // ---------------------------------------------------------------------

  function Amount(item: BillItem): real {
    item.quantity as real * item.rate
  }

  /** sum(item.quantity * item.rate for item in bill_items): left to right from 0. */
  function Total(items: seq<BillItem>): real {
    if |items| == 0 then 0.0 else Total(items[..|items| - 1]) + Amount(items[|items| - 1])
  }

  /** The sum of the amount column of some line rows, in their order. */
  function SumAmounts(rows: seq<Row<LineCols>>): real {
    if |rows| == 0 then 0.0 else SumAmounts(rows[..|rows| - 1]) + rows[|rows| - 1].cols.amount
  }

  /** The columns create_bill's loop inserts for the items of bill billId, in order. */
  function LinesFor(billId: int, items: seq<BillItem>): (r: seq<LineCols>)
    ensures |r| == |items|
  {
    seq(|items|, k requires 0 <= k < |items| => LineCols(billId, items[k].quantity, items[k].itemId, Amount(items[k])))
  }

  /** "SELECT * FROM bill_items WHERE bill_id = ?", rows kept in insertion order. */
  function LinesOf(rows: seq<Row<LineCols>>, billId: int): seq<Row<LineCols>> {
    if |rows| == 0 then []
    else
      LinesOf(rows[..|rows| - 1], billId)
      + (if rows[|rows| - 1].cols.billId == billId then [rows[|rows| - 1]] else [])
  }

  // ---------------------------------------------------------------------
  // The state after each POST endpoint (uuid4() results are parameters)
  // ---------------------------------------------------------------------

  /** create_company: one INSERT into company with the fields verbatim. */
  function AfterCreateCompany(db: Db, companyUuid: string, company: Company): Db {
    db.(companies := Insert(db.companies, companyUuid, company))
  }

  /** create_item: one INSERT into items with item_name and rate verbatim. */
  function AfterCreateItem(db: Db, itemUuid: string, item: Item): Db {
    db.(items := Insert(db.items, itemUuid, item))
  }

  /** create_bill once its date has parsed: one INSERT into bills carrying the total, then one
      INSERT into bill_items per request line with bill_id = lastrowid. */
  function AfterCreateBill(db: Db, bill: Bill, date: string, billUuid: string, lineUuids: seq<string>): Db
    requires |lineUuids| == |bill.billItems|
  {
    var billId := db.bills.next;
    db.(bills := Insert(db.bills, billUuid, BillCols(date, bill.slNumber, bill.companyId, Total(bill.billItems))),
        billItems := InsertAll(db.billItems, lineUuids, LinesFor(billId, bill.billItems)))
  }

  // ---------------------------------------------------------------------
  // The GET endpoints
  // ---------------------------------------------------------------------

  /** get_bill(bill_id) */
  function GetBill(db: Db, billId: int): (r: BillResponse)
    ensures r.BillNotFound? <==> forall b :: b in db.bills.rows ==> b.id != billId
    ensures r.BillFound? ==> r.bill in db.bills.rows && r.bill.id == billId
    ensures r.BillFound? ==>
              forall line :: line in r.billItems <==> line in db.billItems.rows && line.cols.billId == billId
  {
    match SelectById(db.bills.rows, billId)
    case None => BillNotFound
    case Some(b) =>
      LinesOfMembers(db.billItems.rows, billId);
      BillFound(b, LinesOf(db.billItems.rows, billId))
  }

  /** get_item(item_id) */
  function GetItem(db: Db, itemId: int): (r: ItemResponse)
    ensures r.ItemNotFound? <==> forall row :: row in db.items.rows ==> row.id != itemId
    ensures r.ItemFound? ==>
              && r.id == itemId
              && exists row :: row in db.items.rows && row.id == itemId && row.cols == Item(r.itemName, r.rate)
  {
    match SelectById(db.items.rows, itemId)
    case None => ItemNotFound
    case Some(row) => ItemFound(row.id, row.cols.itemName, row.cols.rate)
  }

  // ---------------------------------------------------------------------
  // The store invariant
  // ---------------------------------------------------------------------

  /** Keys are AUTOINCREMENT keys, every line row belongs to a stored bill, and every bill's
      total is the sum of the amounts of its line rows. */
  predicate Consistent(db: Db) {
    && WellKeyed(db.companies) && WellKeyed(db.items) && WellKeyed(db.bills) && WellKeyed(db.billItems)
    && (forall line :: line in db.billItems.rows ==> SelectById(db.bills.rows, line.cols.billId).Some?)
    && (forall b :: b in db.bills.rows ==> b.cols.total == SumAmounts(LinesOf(db.billItems.rows, b.id)))
  }

  // ---------------------------------------------------------------------
  // Lemmas: the date validator
  // ---------------------------------------------------------------------

  /** The validator accepts exactly the spellings of real calendar dates, and returns the date
      zero-padded with a midnight time. */
  lemma ValidateDateIff(value: string, r: string)
    ensures ValidateDate(value) == Ok(r) <==>
            exists d :: ValidDate(d) && SpelledAs(value, d) && r == FormatDateTime(Midnight(d))
  {
    if ValidateDate(value) == Ok(r) {
      var d := ParseDate(value).value;
      ParseDateSpellings(value, d);
    }
    if exists d :: ValidDate(d) && SpelledAs(value, d) && r == FormatDateTime(Midnight(d)) {
      var d :| ValidDate(d) && SpelledAs(value, d) && r == FormatDateTime(Midnight(d));
      ParseDateSpellings(value, d);
    }
  }

  /** Anything that is not such a spelling raises "Incorrect date format". */
  lemma ValidateDateRejects(value: string)
    requires forall d :: ValidDate(d) ==> !SpelledAs(value, d)
    ensures ValidateDate(value) == Err(DateFormatError)
  {
    if ParseDate(value).Some? {
      ParseDateSpellings(value, ParseDate(value).value);
    }
  }

  /** The validator's output always parses under "%Y-%m-%d %H:%M:%S", as the date it came from at
      midnight, and sqlite3 stores that datetime (isoformat(" ")) as the validator's output. */
  lemma NormalisedDateReparses(value: string, r: string)
    requires ValidateDate(value) == Ok(r)
    ensures ParseDateTime(r) == Some(Midnight(ParseDate(value).value))
    ensures FormatDateTime(ParseDateTime(r).value) == r
  {
    FormatDateTimeParses(Midnight(ParseDate(value).value));
  }

  /** So the 400 branch of create_bill cannot be reached by a validated request. */
  lemma ValidatedBillParses(date: string, slNumber: int, companyId: int, items: seq<BillItem>)
    requires NewBill(date, slNumber, companyId, items).Ok?
    ensures var bill := NewBill(date, slNumber, companyId, items).value;
            ParseDateTime(bill.date).Some? && FormatDateTime(ParseDateTime(bill.date).value) == bill.date
  {
    NormalisedDateReparses(date, NewBill(date, slNumber, companyId, items).value.date);
  }

  /** Bill.validate_date where strftime writes %Y without zero padding (glibc, under CPython
      versions that hand %Y to the C library unchanged). */
  function ValidateDateUnpaddedYear(value: string): Result<string, string> {
    match ParseDate(value)
    case Some(d) => Ok(FormatDateTimeUnpaddedYear(Midnight(d)))
    case None => Err(DateFormatError)
  }

  /** There, a date the validator accepts reaches create_bill as text its strptime refuses, so
      the request is answered 400 "Invalid date format". */
  lemma UnpaddedValidatorReaches400()
    ensures ValidateDateUnpaddedYear("0999-01-01") == Ok("999-01-01 00:00:00")
    ensures ParseDateTime(ValidateDateUnpaddedYear("0999-01-01").value) == None
  {
    UnpaddedYearCounterexample();
    UnpaddedYear999Text();
  }

  // ---------------------------------------------------------------------
  // Lemmas: amounts and line selection
  // ---------------------------------------------------------------------

  lemma NewLinesPrefix(first: int, uuids: seq<string>, billId: int, items: seq<BillItem>, k: int)
    requires |uuids| == |items| && 0 <= k <= |items|
    ensures NewRows(first, uuids, LinesFor(billId, items))[..k]
         == NewRows(first, uuids[..k], LinesFor(billId, items[..k]))
  {
  }

  /** The amounts of the line rows create_bill inserts add up to the total it stores. */
  lemma {:induction false} NewLinesSumToTotal(first: int, uuids: seq<string>, billId: int, items: seq<BillItem>)
    requires |uuids| == |items|
    ensures SumAmounts(NewRows(first, uuids, LinesFor(billId, items))) == Total(items)
  {
    if |items| > 0 {
      var n := |items| - 1;
      var rows := NewRows(first, uuids, LinesFor(billId, items));
      NewLinesPrefix(first, uuids, billId, items, n);
      NewLinesSumToTotal(first, uuids[..n], billId, items[..n]);
      assert rows[..|rows| - 1] == NewRows(first, uuids[..n], LinesFor(billId, items[..n]));
    }
  }

  /** The rows selected by bill_id are exactly the stored rows carrying it. */
  lemma {:induction false} LinesOfMembers(rows: seq<Row<LineCols>>, billId: int)
    ensures forall row :: row in LinesOf(rows, billId) <==> row in rows && row.cols.billId == billId
  {
    if |rows| > 0 {
      var init := rows[..|rows| - 1];
      LinesOfMembers(init, billId);
      assert rows == init + [rows[|rows| - 1]];
    }
  }

  /** Selecting by bill_id distributes over appended rows. */
  lemma {:induction false} LinesOfAppend(a: seq<Row<LineCols>>, b: seq<Row<LineCols>>, billId: int)
    ensures LinesOf(a + b, billId) == LinesOf(a, billId) + LinesOf(b, billId)
  {
    if |b| == 0 {
      assert a + b == a;
    } else {
      var n := |b| - 1;
      assert (a + b)[..|a + b| - 1] == a + b[..n];
      assert (a + b)[|a + b| - 1] == b[n];
      LinesOfAppend(a, b[..n], billId);
    }
  }

  /** Rows that all carry one bill_id are selected whole by that id. */
  lemma {:induction false} LinesOfOneBill(rows: seq<Row<LineCols>>, billId: int)
    requires forall k :: 0 <= k < |rows| ==> rows[k].cols.billId == billId
    ensures LinesOf(rows, billId) == rows
  {
    if |rows| > 0 {
      var init := rows[..|rows| - 1];
      assert forall k :: 0 <= k < |init| ==> init[k] == rows[k];
      LinesOfOneBill(init, billId);
      assert LinesOf(rows, billId) == LinesOf(init, billId) + [rows[|rows| - 1]];
      assert rows == init + [rows[|rows| - 1]];
    }
  }

  /** The new line rows all carry the new bill's id and no other. */
  lemma LinesOfNewLines(first: int, uuids: seq<string>, billId: int, items: seq<BillItem>, id: int)
    requires |uuids| == |items|
    ensures LinesOf(NewRows(first, uuids, LinesFor(billId, items)), id)
         == if id == billId then NewRows(first, uuids, LinesFor(billId, items)) else []
  {
    var rows := NewRows(first, uuids, LinesFor(billId, items));
    if id == billId {
      LinesOfOneBill(rows, billId);
    } else {
      forall row | row in rows ensures row.cols.billId != id {
        var k :| 0 <= k < |rows| && rows[k] == row;
      }
      LinesOfNone(rows, id);
    }
  }

  lemma LinesOfNone(rows: seq<Row<LineCols>>, billId: int)
    requires forall row :: row in rows ==> row.cols.billId != billId
    ensures LinesOf(rows, billId) == []
  {
  }

  // ---------------------------------------------------------------------
  // Lemmas: the POST endpoints
  // ---------------------------------------------------------------------

  lemma CreateCompanyKeepsConsistency(db: Db, companyUuid: string, company: Company)
    requires Consistent(db)
    ensures Consistent(AfterCreateCompany(db, companyUuid, company))
  {
    InsertKeepsKeys(db.companies, companyUuid, company);
  }

  lemma CreateItemKeepsConsistency(db: Db, itemUuid: string, item: Item)
    requires Consistent(db)
    ensures Consistent(AfterCreateItem(db, itemUuid, item))
  {
    InsertKeepsKeys(db.items, itemUuid, item);
  }

  /** No line row of a consistent store carries the key the next bill will get. */
  lemma NoLinesForNextBill(db: Db)
    requires Consistent(db)
    ensures LinesOf(db.billItems.rows, db.bills.next) == []
  {
    forall line | line in db.billItems.rows ensures line.cols.billId != db.bills.next {
      var b := SelectById(db.bills.rows, line.cols.billId).value;
      var i :| 0 <= i < |db.bills.rows| && db.bills.rows[i] == b;
    }
    LinesOfNone(db.billItems.rows, db.bills.next);
  }

  /** After create_bill every line row, old or new, points at a stored bill. */
  lemma CreateBillLinesHaveBills(db: Db, bill: Bill, date: string, billUuid: string, lineUuids: seq<string>)
    requires Consistent(db) && |lineUuids| == |bill.billItems|
    ensures var after := AfterCreateBill(db, bill, date, billUuid, lineUuids);
            forall line :: line in after.billItems.rows ==> SelectById(after.bills.rows, line.cols.billId).Some?
  {
    var after := AfterCreateBill(db, bill, date, billUuid, lineUuids);
    var n := db.bills.next;
    var newBill := Row(n, billUuid, BillCols(date, bill.slNumber, bill.companyId, Total(bill.billItems)));
    var newLines := NewRows(db.billItems.next, lineUuids, LinesFor(n, bill.billItems));
    assert after.bills.rows == db.bills.rows + [newBill];
    assert after.billItems.rows == db.billItems.rows + newLines;
    InsertKeepsKeys(db.bills, billUuid, newBill.cols);
    assert SelectById(db.bills.rows, n).None?;
    assert SelectById([newBill], n) == Some(newBill);
    forall line | line in after.billItems.rows
      ensures SelectById(after.bills.rows, line.cols.billId).Some?
    {
      SelectAppend(db.bills.rows, [newBill], line.cols.billId);
      if line !in db.billItems.rows {
        var k :| 0 <= k < |newLines| && newLines[k] == line;
      }
    }
  }

  /** After create_bill the total of bill b, old or new, is the sum of its line amounts. */
  lemma CreateBillTotalOf(db: Db, bill: Bill, date: string, billUuid: string, lineUuids: seq<string>, b: Row<BillCols>)
    requires Consistent(db) && |lineUuids| == |bill.billItems|
    requires b in AfterCreateBill(db, bill, date, billUuid, lineUuids).bills.rows
    ensures b.cols.total == SumAmounts(LinesOf(AfterCreateBill(db, bill, date, billUuid, lineUuids).billItems.rows, b.id))
  {
    var after := AfterCreateBill(db, bill, date, billUuid, lineUuids);
    var n := db.bills.next;
    var newBill := Row(n, billUuid, BillCols(date, bill.slNumber, bill.companyId, Total(bill.billItems)));
    var newLines := NewRows(db.billItems.next, lineUuids, LinesFor(n, bill.billItems));
    assert after.bills.rows == db.bills.rows + [newBill];
    assert after.billItems.rows == db.billItems.rows + newLines;
    LinesOfAppend(db.billItems.rows, newLines, b.id);
    LinesOfNewLines(db.billItems.next, lineUuids, n, bill.billItems, b.id);
    if b in db.bills.rows {
      InsertKeepsKeys(db.bills, billUuid, newBill.cols);
      assert b.id < n;
      assert LinesOf(db.billItems.rows, b.id) + [] == LinesOf(db.billItems.rows, b.id);
    } else {
      assert b == newBill;
      NoLinesForNextBill(db);
      assert [] + newLines == newLines;
      NewLinesSumToTotal(db.billItems.next, lineUuids, n, bill.billItems);
    }
  }

  /** create_bill keeps every bill's total equal to the sum of its line amounts, whatever
      company, item ids, quantities and rates the request carries. */
  lemma CreateBillKeepsConsistency(db: Db, bill: Bill, date: string, billUuid: string, lineUuids: seq<string>)
    requires Consistent(db) && |lineUuids| == |bill.billItems|
    ensures Consistent(AfterCreateBill(db, bill, date, billUuid, lineUuids))
  {
    var after := AfterCreateBill(db, bill, date, billUuid, lineUuids);
    InsertKeepsKeys(db.bills, billUuid, BillCols(date, bill.slNumber, bill.companyId, Total(bill.billItems)));
    InsertAllKeepsKeys(db.billItems, lineUuids, LinesFor(db.bills.next, bill.billItems));
    CreateBillLinesHaveBills(db, bill, date, billUuid, lineUuids);
    forall b | b in after.bills.rows
      ensures b.cols.total == SumAmounts(LinesOf(after.billItems.rows, b.id))
    {
      CreateBillTotalOf(db, bill, date, billUuid, lineUuids, b);
    }
  }

  /** create_bill only appends: company and items are untouched, the old rows of bills and
      bill_items stay as they were, and it adds one bill row and one line row per request line,
      in request order, with keys above every existing key. */
  lemma CreateBillAppendsOnly(db: Db, bill: Bill, date: string, billUuid: string, lineUuids: seq<string>)
    requires Consistent(db) && |lineUuids| == |bill.billItems|
    ensures var after := AfterCreateBill(db, bill, date, billUuid, lineUuids);
            && after.companies == db.companies && after.items == db.items
            && |after.bills.rows| == |db.bills.rows| + 1
            && after.bills.rows[..|db.bills.rows|] == db.bills.rows
            && |after.billItems.rows| == |db.billItems.rows| + |bill.billItems|
            && after.billItems.rows[..|db.billItems.rows|] == db.billItems.rows
            && (forall b :: b in db.bills.rows ==> b.id < after.bills.rows[|db.bills.rows|].id)
            && (forall i, k :: 0 <= i < |db.billItems.rows| <= k < |after.billItems.rows| ==>
                  after.billItems.rows[i].id < after.billItems.rows[k].id)
  {
    var after := AfterCreateBill(db, bill, date, billUuid, lineUuids);
    var newBill := BillCols(date, bill.slNumber, bill.companyId, Total(bill.billItems));
    InsertKeepsKeys(db.bills, billUuid, newBill);
    InsertAllKeepsKeys(db.billItems, lineUuids, LinesFor(db.bills.next, bill.billItems));
  }

  /** What create_bill stores for each request line: its quantity and item_id as given,
      amount = quantity * rate from the request, and bill_id = the new bill's key. The new bill
      row carries the request's sl_number and company_id as given. No existence or sign check
      is involved: the lemma has no hypothesis on them. */
  lemma CreateBillStoresRequest(db: Db, bill: Bill, date: string, billUuid: string, lineUuids: seq<string>)
    requires |lineUuids| == |bill.billItems|
    ensures var after := AfterCreateBill(db, bill, date, billUuid, lineUuids);
            var newBill := after.bills.rows[|db.bills.rows|];
            && newBill.id == db.bills.next
            && newBill.cols.slNumber == bill.slNumber && newBill.cols.companyId == bill.companyId
            && newBill.cols.date == date
            && forall k :: 0 <= k < |bill.billItems| ==>
                 var line := after.billItems.rows[|db.billItems.rows| + k].cols;
                 && line.billId == newBill.id
                 && line.itemId == bill.billItems[k].itemId
                 && line.quantity == bill.billItems[k].quantity
                 && line.amount == bill.billItems[k].quantity as real * bill.billItems[k].rate
  {
  }

  /** The (item_id, quantity, amount) of some line rows, in order. */
  function LineSummary(rows: seq<Row<LineCols>>): seq<(int, int, real)> {
    seq(|rows|, k requires 0 <= k < |rows| => (rows[k].cols.itemId, rows[k].cols.quantity, rows[k].cols.amount))
  }

  /** The (item_id, quantity, quantity * rate) of the request lines, in order. */
  function RequestSummary(items: seq<BillItem>): seq<(int, int, real)> {
    seq(|items|, k requires 0 <= k < |items| => (items[k].itemId, items[k].quantity, Amount(items[k])))
  }

  lemma SummaryOfNewLines(first: int, uuids: seq<string>, billId: int, items: seq<BillItem>)
    requires |uuids| == |items|
    ensures LineSummary(NewRows(first, uuids, LinesFor(billId, items))) == RequestSummary(items)
  {
    var rows := NewRows(first, uuids, LinesFor(billId, items));
    var lines := LinesFor(billId, items);
    forall k | 0 <= k < |items|
      ensures LineSummary(rows)[k] == RequestSummary(items)[k]
    {
      assert rows[k].cols == lines[k];
    }
  }

  /** get_bill on the key create_bill just used returns the new bill row and exactly the new
      line rows. */
  lemma GetBillOfNewBill(db: Db, bill: Bill, date: string, billUuid: string, lineUuids: seq<string>)
    requires Consistent(db) && |lineUuids| == |bill.billItems|
    ensures var n := db.bills.next;
            GetBill(AfterCreateBill(db, bill, date, billUuid, lineUuids), n)
            == BillFound(Row(n, billUuid, BillCols(date, bill.slNumber, bill.companyId, Total(bill.billItems))),
                         NewRows(db.billItems.next, lineUuids, LinesFor(n, bill.billItems)))
  {
    var n := db.bills.next;
    var after := AfterCreateBill(db, bill, date, billUuid, lineUuids);
    var newBill := Row(n, billUuid, BillCols(date, bill.slNumber, bill.companyId, Total(bill.billItems)));
    var newLines := NewRows(db.billItems.next, lineUuids, LinesFor(n, bill.billItems));
    InsertKeepsKeys(db.bills, billUuid, newBill.cols);
    assert SelectById(db.bills.rows, n).None?;
    assert after.bills.rows == db.bills.rows + [newBill];
    SelectAppend(db.bills.rows, [newBill], n);
    assert SelectById([newBill], n) == Some(newBill);
    assert after.billItems.rows == db.billItems.rows + newLines;
    LinesOfAppend(db.billItems.rows, newLines, n);
    NoLinesForNextBill(db);
    LinesOfNewLines(db.billItems.next, lineUuids, n, bill.billItems, n);
    assert [] + newLines == newLines;
  }

  /** get_bill on the key create_bill just used returns the request's total, equal to the sum of
      the returned amounts, and line rows whose (item_id, quantity, amount) are the request's lines
      in order (so equal as multisets too); an empty request gives total 0 and no lines. */
  lemma GetBillAfterCreateBill(db: Db, bill: Bill, date: string, billUuid: string, lineUuids: seq<string>)
    requires Consistent(db) && |lineUuids| == |bill.billItems|
    ensures var r := GetBill(AfterCreateBill(db, bill, date, billUuid, lineUuids), db.bills.next);
            && r.BillFound?
            && r.bill.cols.total == Total(bill.billItems) == SumAmounts(r.billItems)
            && (|bill.billItems| == 0 ==> r.bill.cols.total == 0.0 && r.billItems == [])
            && LineSummary(r.billItems) == RequestSummary(bill.billItems)
            && multiset(LineSummary(r.billItems)) == multiset(RequestSummary(bill.billItems))
  {
    GetBillOfNewBill(db, bill, date, billUuid, lineUuids);
    var newLines := NewRows(db.billItems.next, lineUuids, LinesFor(db.bills.next, bill.billItems));
    NewLinesSumToTotal(db.billItems.next, lineUuids, db.bills.next, bill.billItems);
    SummaryOfNewLines(db.billItems.next, lineUuids, db.bills.next, bill.billItems);
  }

  /** create_bill does not change what get_bill returns for any other key. */
  lemma GetBillOtherAfterCreateBill(db: Db, bill: Bill, date: string, billUuid: string, lineUuids: seq<string>, id: int)
    requires Consistent(db) && |lineUuids| == |bill.billItems| && id != db.bills.next
    ensures GetBill(AfterCreateBill(db, bill, date, billUuid, lineUuids), id) == GetBill(db, id)
  {
    var n := db.bills.next;
    var newBill := Row(n, billUuid, BillCols(date, bill.slNumber, bill.companyId, Total(bill.billItems)));
    var newLines := NewRows(db.billItems.next, lineUuids, LinesFor(n, bill.billItems));
    SelectAppend(db.bills.rows, [newBill], id);
    LinesOfAppend(db.billItems.rows, newLines, id);
    LinesOfNewLines(db.billItems.next, lineUuids, n, bill.billItems, id);
    assert LinesOf(db.billItems.rows, id) + [] == LinesOf(db.billItems.rows, id);
  }

  /** In a consistent store, every bill get_bill returns has a total equal to the sum of the
      amounts of the line rows returned with it. */
  lemma GetBillTotalIsSumOfLines(db: Db, id: int)
    requires Consistent(db) && GetBill(db, id).BillFound?
    ensures GetBill(db, id).bill.cols.total == SumAmounts(GetBill(db, id).billItems)
  {
  }

  /** get_item on the key create_item just used returns the item_name and rate stored verbatim;
      every other key answers as before. */
  lemma GetItemAfterCreateItem(db: Db, itemUuid: string, item: Item, id: int)
    requires WellKeyed(db.items)
    ensures GetItem(AfterCreateItem(db, itemUuid, item), db.items.next)
         == ItemFound(db.items.next, item.itemName, item.rate)
    ensures id != db.items.next ==> GetItem(AfterCreateItem(db, itemUuid, item), id) == GetItem(db, id)
  {
    var newRow := Row(db.items.next, itemUuid, item);
    InsertKeepsKeys(db.items, itemUuid, item);
    assert SelectById(db.items.rows, db.items.next).None?;
    SelectAppend(db.items.rows, [newRow], db.items.next);
    SelectAppend(db.items.rows, [newRow], id);
    assert SelectById([newRow], db.items.next) == Some(newRow);
  }

  /** In a store with AUTOINCREMENT keys, get_item on the key of any stored item returns that
      row's item_name and rate. */
  lemma GetItemOfStoredRow(db: Db, i: int)
    requires WellKeyed(db.items) && 0 <= i < |db.items.rows|
    ensures var row := db.items.rows[i];
            GetItem(db, row.id) == ItemFound(row.id, row.cols.itemName, row.cols.rate)
  {
    SelectByKey(db.items, i);
  }

  /** get_item on an empty store answers 404. */
  lemma GetItemEmpty(id: int)
    ensures GetItem(EmptyDb(), id) == ItemNotFound
  {
  }

  lemma EmptyDbConsistent()
    ensures Consistent(EmptyDb())
  {
  }
}
