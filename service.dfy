/**
 * The FastAPI endpoints of main.py as methods of one object that owns the database. Each POST
 * endpoint appends rows the way its INSERT statements do; the uuid4() values it would draw are
 * passed in. The GET endpoints only read, and are Billing.GetBill and Billing.GetItem on `db`.
 */
module Service {
  import opened Dates
  import opened Tables
  import opened Billing

  class BillingService {
    var db: Db

    ghost predicate Valid()
      reads this
    {
      Consistent(db)
    }

    /** init_db on a fresh billing.db: the four tables, empty. */
    constructor ()
      ensures Valid() && db == EmptyDb()
    {
      db := EmptyDb();
      EmptyDbConsistent();
    }

    /** POST /companies/: stores the company verbatim and answers its uuid. */
    method CreateCompany(company: Company, companyUuid: string) returns (r: string)
      requires Valid()
      modifies this
      ensures Valid()
      ensures r == companyUuid
      ensures db == AfterCreateCompany(old(db), companyUuid, company)
    {
      CreateCompanyKeepsConsistency(db, companyUuid, company);
      db := db.(companies := Insert(db.companies, companyUuid, company));
      r := companyUuid;
    }

    /** POST /items/: stores item_name and rate verbatim (no check on the rate) and answers the
        uuid; get_item on the new key then answers exactly what was stored. */
    method CreateItem(item: Item, itemUuid: string) returns (r: string)
      requires Valid()
      modifies this
      ensures Valid()
      ensures r == itemUuid
      ensures db == AfterCreateItem(old(db), itemUuid, item)
      ensures GetItem(db, old(db).items.next) == ItemFound(old(db).items.next, item.itemName, item.rate)
    {
      CreateItemKeepsConsistency(db, itemUuid, item);
      GetItemAfterCreateItem(db, itemUuid, item, db.items.next);
      db := db.(items := Insert(db.items, itemUuid, item));
      r := itemUuid;
    }

    /** POST /bills/: re-parses the (already validated) date, answers 400 if that fails, and
        otherwise inserts the bill row with the total, then one line row per request line. */
    method CreateBill(bill: Bill, billUuid: string, lineUuids: seq<string>) returns (outcome: CreateBillOutcome)
      requires Valid() && |lineUuids| == |bill.billItems|
      modifies this
      ensures Valid()
      ensures ParseDateTime(bill.date).None? ==> outcome == BadRequest(InvalidDateDetail) && db == old(db)
      ensures ParseDateTime(bill.date).Some? ==>
                && outcome == BillCreated(billUuid)
                && db == AfterCreateBill(old(db), bill, FormatDateTime(ParseDateTime(bill.date).value), billUuid, lineUuids)
    {
      var parsed := ParseDateTime(bill.date);
      if parsed.None? {
        outcome := BadRequest(InvalidDateDetail);
        return;
      }
      // sqlite3 stores the datetime through isoformat(" ")
      var date := FormatDateTime(parsed.value);
      CreateBillKeepsConsistency(db, bill, date, billUuid, lineUuids);
      StoreBill(bill, date, billUuid, lineUuids);
      outcome := BillCreated(billUuid);
    }

    /** The INSERTs of create_bill: the bill row with the request's total, then, in order, one
        bill_items row per request line with bill_id = lastrowid and amount = quantity * rate. */
    method StoreBill(bill: Bill, date: string, billUuid: string, lineUuids: seq<string>)
      requires |lineUuids| == |bill.billItems|
      modifies this
      ensures db == AfterCreateBill(old(db), bill, date, billUuid, lineUuids)
    {
      var total := Total(bill.billItems);
      db := db.(bills := Insert(db.bills, billUuid, BillCols(date, bill.slNumber, bill.companyId, total)));
      var billId := db.bills.next - 1;  // cursor.lastrowid
      ghost var start := db;
      ghost var lines := LinesFor(billId, bill.billItems);
      for i := 0 to |bill.billItems|
        invariant db == start.(billItems := InsertAll(start.billItems, lineUuids[..i], lines[..i]))
      {
        var item := bill.billItems[i];
        var line := LineCols(billId, item.quantity, item.itemId, Amount(item));
        InsertAllStep(start.billItems, lineUuids, lines, i);
        db := db.(billItems := Insert(db.billItems, lineUuids[i], line));
      }
      assert lineUuids[..|lineUuids|] == lineUuids && lines[..|lines|] == lines;
    }
  }
}
