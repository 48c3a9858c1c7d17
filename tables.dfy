/**
 * A SQLite table whose key is "id INTEGER PRIMARY KEY AUTOINCREMENT" and that also keeps a
 * "uuid TEXT UNIQUE NOT NULL" column, held as the sequence of its rows in insertion order.
 * `next` is the key the next INSERT receives (one more than the table's sqlite_sequence entry).
 */
module Tables {
  import opened Wrappers

  datatype Row<T> = Row(id: int, uuid: string, cols: T)

  datatype Table<T> = Table(rows: seq<Row<T>>, next: int)

  /** CREATE TABLE: no rows, and AUTOINCREMENT hands out 1 first. */
  function EmptyTable<T>(): Table<T> {
    Table([], 1)
  }

  /** AUTOINCREMENT keys: positive, strictly increasing in insertion order, below the next key. */
  predicate WellKeyed<T>(t: Table<T>) {
    && 1 <= t.next
    && (forall i :: 0 <= i < |t.rows| ==> 1 <= t.rows[i].id < t.next)
    && (forall i, j :: 0 <= i < j < |t.rows| ==> t.rows[i].id < t.rows[j].id)
  }

  /** INSERT of one row; its key is `t.next`, what cursor.lastrowid then reports. */
  function Insert<T>(t: Table<T>, uuid: string, cols: T): Table<T> {
    Table(t.rows + [Row(t.next, uuid, cols)], t.next + 1)
  }

  /** The rows that the INSERTs of `cols`, one after another, append. */
  function NewRows<T>(first: int, uuids: seq<string>, cols: seq<T>): (r: seq<Row<T>>)
    requires |uuids| == |cols|
    ensures |r| == |cols|
    // spelled out for callers, so that they need not unfold the comprehension
    ensures forall k :: 0 <= k < |r| ==> r[k] == Row(first + k, uuids[k], cols[k])
  {
    seq(|cols|, k requires 0 <= k < |cols| => Row(first + k, uuids[k], cols[k]))
  }

  /** One INSERT per element of `cols`, in order. */
  function InsertAll<T>(t: Table<T>, uuids: seq<string>, cols: seq<T>): Table<T>
    requires |uuids| == |cols|
  {
    Table(t.rows + NewRows(t.next, uuids, cols), t.next + |cols|)
  }

  /** "SELECT * FROM table WHERE id = ?" followed by fetchone(): the first row with that key. */
  function SelectById<T>(rows: seq<Row<T>>, id: int): (r: Option<Row<T>>)
    ensures r.Some? ==> r.value in rows && r.value.id == id
    ensures r.None? <==> forall row :: row in rows ==> row.id != id
  {
    if |rows| == 0 then None
    else if rows[0].id == id then Some(rows[0])
    else SelectById(rows[1..], id)
  }

  // ---------------------------------------------------------------------
  // Lemmas
  // ---------------------------------------------------------------------

  /** An INSERT keeps the keys well formed, gives a key above every existing one,
      and leaves every existing row as it was. */
  lemma InsertKeepsKeys<T>(t: Table<T>, uuid: string, cols: T)
    requires WellKeyed(t)
    ensures WellKeyed(Insert(t, uuid, cols))
    ensures forall row :: row in t.rows ==> row.id < t.next
    ensures Insert(t, uuid, cols).rows[..|t.rows|] == t.rows
  {
    var u := Insert(t, uuid, cols);
    assert u.rows[..|t.rows|] == t.rows;
    forall row | row in t.rows ensures row.id < t.next {
      var i :| 0 <= i < |t.rows| && t.rows[i] == row;
    }
  }

  /** The INSERTs of a whole sequence keep the keys well formed and number the new rows
      consecutively from `t.next`, above every existing key. */
  lemma InsertAllKeepsKeys<T>(t: Table<T>, uuids: seq<string>, cols: seq<T>)
    requires WellKeyed(t) && |uuids| == |cols|
    ensures WellKeyed(InsertAll(t, uuids, cols))
    ensures InsertAll(t, uuids, cols).rows[..|t.rows|] == t.rows
  {
    var u := InsertAll(t, uuids, cols);
    assert u.rows[..|t.rows|] == t.rows;
    forall i, j | 0 <= i < j < |u.rows| ensures u.rows[i].id < u.rows[j].id {
      if j >= |t.rows| && i < |t.rows| {
        assert u.rows[i] == t.rows[i];
      }
    }
  }

  /** The loop that inserts a sequence one element at a time builds InsertAll. */
  lemma InsertAllStep<T>(t: Table<T>, uuids: seq<string>, cols: seq<T>, i: int)
    requires |uuids| == |cols| && 0 <= i < |cols|
    ensures InsertAll(t, uuids[..i + 1], cols[..i + 1])
         == Insert(InsertAll(t, uuids[..i], cols[..i]), uuids[i], cols[i])
  {
    var a := NewRows(t.next, uuids[..i + 1], cols[..i + 1]);
    var b := NewRows(t.next, uuids[..i], cols[..i]) + [Row(t.next + i, uuids[i], cols[i])];
    assert a == b;
    assert t.rows + a == (t.rows + NewRows(t.next, uuids[..i], cols[..i])) + [Row(t.next + i, uuids[i], cols[i])];
  }

  /** Rows appended after a key is found do not change what a lookup of that key returns;
      a key absent from the old rows is looked up in the appended ones. */
  lemma {:induction false} SelectAppend<T>(a: seq<Row<T>>, b: seq<Row<T>>, id: int)
    ensures SelectById(a + b, id) == if SelectById(a, id).Some? then SelectById(a, id) else SelectById(b, id)
  {
    if |a| > 0 {
      assert (a + b)[0] == a[0];
      assert (a + b)[1..] == a[1..] + b;
      SelectAppend(a[1..], b, id);
    } else {
      assert a + b == b;
    }
  }

  /** In a well-keyed table a key names exactly one row, and the lookup returns it. */
  lemma SelectByKey<T>(t: Table<T>, i: int)
    requires WellKeyed(t) && 0 <= i < |t.rows|
    ensures SelectById(t.rows, t.rows[i].id) == Some(t.rows[i])
  {
    var r := SelectById(t.rows, t.rows[i].id);
    var j :| 0 <= j < |t.rows| && t.rows[j] == r.value;
    assert j == i;
  }
}
