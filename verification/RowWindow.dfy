/** The ordered, bounded set of rows behind one page of a table. */
module RowWindow {
  import opened Columns

  // ---------- the order of rows ----------

  predicate Ordering(col: Column) {
    col.orderable && col.order != ""
  }

  /** Rows compare by the ordering columns in turn, and at last by address. Reading the set from its greatest
      row down therefore shows "desc" columns descending and all others ascending. */
  predicate Less(cols: seq<Column>, a: Row, b: Row) {
    if cols == [] then Compare(a.address, b.address) == -1
    else if Ordering(cols[0]) && Compare(Cell(a, cols[0].name), Cell(b, cols[0].name)) != 0 then
      Compare(Cell(a, cols[0].name), Cell(b, cols[0].name)) == (if cols[0].order == "desc" then -1 else 1)
    else Less(cols[1..], a, b)
  }

  /** `Less` is a strict order, total on rows with different addresses. */
  lemma {:induction false} LessIsTotal(cols: seq<Column>, a: Row, b: Row)
    ensures !(Less(cols, a, b) && Less(cols, b, a))
    ensures a.address != b.address ==> Less(cols, a, b) || Less(cols, b, a)
  {
    if cols == [] {
      CompareFlips(a.address, b.address);
    } else {
      CompareFlips(Cell(a, cols[0].name), Cell(b, cols[0].name));
      LessIsTotal(cols[1..], a, b);
    }
  }

  lemma {:induction false} LessIsTransitive(cols: seq<Column>, a: Row, b: Row, c: Row)
    requires Less(cols, a, b) && Less(cols, b, c)
    ensures Less(cols, a, c)
  {
    if cols == [] {
      CompareTransitive(a.address, b.address, c.address);
    } else {
      var x, y, z := Cell(a, cols[0].name), Cell(b, cols[0].name), Cell(c, cols[0].name);
      CompareFlips(x, y);
      CompareFlips(y, z);
      CompareFlips(x, z);
      if Ordering(cols[0]) && (x != y || y != z) {
        if Compare(x, y) == -1 && Compare(y, z) == -1 {
          CompareTransitive(x, y, z);
        } else if Compare(x, y) == 1 && Compare(y, z) == 1 {
          CompareTransitive(z, y, x);
        }
      } else {
        LessIsTransitive(cols[1..], a, b, c);
      }
    }
  }

  /** Which of two rows is the greater: at the first column that is orderable, has an order, and has different cells
      in them, the one with the greater cell if that order is "desc", with the lesser cell otherwise; without such a
      column, the one with the greater address. */
  lemma {:induction false} LessByFirstDifference(cols: seq<Column>, a: Row, b: Row, c: nat)
    requires c <= |cols|
    requires forall k :: 0 <= k < c && cols[k].orderable && cols[k].order != "" ==>
               Cell(a, cols[k].name) == Cell(b, cols[k].name)
    requires c < |cols| ==>
               cols[c].orderable && cols[c].order != "" && Cell(a, cols[c].name) != Cell(b, cols[c].name)
    ensures Less(cols, a, b) <==>
            if c == |cols| then Compare(a.address, b.address) == -1
            else if cols[c].order == "desc" then Compare(Cell(a, cols[c].name), Cell(b, cols[c].name)) == -1
            else Compare(Cell(a, cols[c].name), Cell(b, cols[c].name)) == 1
    decreases |cols|
  {
    if c > 0 {
      LessByFirstDifference(cols[1..], a, b, c - 1);
    }
  }

  // ---------- an ideal ordered set, kept greatest first ----------

  function Insert(cols: seq<Column>, rows: seq<Row>, row: Row): seq<Row> {
    if rows == [] then [row]
    else if Less(cols, rows[0], row) then [row] + rows
    else if Less(cols, row, rows[0]) then [rows[0]] + Insert(cols, rows[1..], row)
    else rows
  }

  ghost predicate Descending(cols: seq<Column>, rows: seq<Row>) {
    forall i, j :: 0 <= i < j < |rows| ==> Less(cols, rows[j], rows[i])
  }

  ghost predicate DistinctRows(rows: seq<Row>) {
    forall i, j :: 0 <= i < j < |rows| ==> rows[i].address != rows[j].address
  }

  ghost predicate NewRow(rows: seq<Row>, row: Row) {
    forall i :: 0 <= i < |rows| ==> rows[i].address != row.address
  }

  lemma {:induction false} InsertSorts(cols: seq<Column>, rows: seq<Row>, row: Row)
    requires Descending(cols, rows) && NewRow(rows, row)
    ensures Descending(cols, Insert(cols, rows, row))
    ensures multiset(Insert(cols, rows, row)) == multiset(rows) + multiset{row}
  {
    if rows != [] {
      LessIsTotal(cols, rows[0], row);
      assert rows == [rows[0]] + rows[1..];
      if Less(cols, rows[0], row) {
        forall j | 0 < j < |rows| ensures Less(cols, rows[j], row) {
          LessIsTransitive(cols, rows[j], rows[0], row);
        }
      } else {
        InsertSorts(cols, rows[1..], row);
        var rest := Insert(cols, rows[1..], row);
        hide Insert, NewRow;
        forall r | r in rest ensures Less(cols, r, rows[0]) {
          assert r in multiset(rest);
          assert r in rows[1..] || r == row;
        }
        PutFirst(cols, rows[0], rest);
      }
    }
  }

  lemma PutFirst(cols: seq<Column>, row: Row, rows: seq<Row>)
    requires Descending(cols, rows) && forall r :: r in rows ==> Less(cols, r, row)
    ensures Descending(cols, [row] + rows)
  {
    hide Less;
  }

  /** The full sort of a list of rows. */
  function Sort(cols: seq<Column>, rows: seq<Row>): seq<Row> {
    if rows == [] then []
    else Insert(cols, Sort(cols, rows[..|rows| - 1]), rows[|rows| - 1])
  }

  lemma {:induction false} SortSorts(cols: seq<Column>, rows: seq<Row>)
    requires DistinctRows(rows)
    ensures Descending(cols, Sort(cols, rows)) && multiset(Sort(cols, rows)) == multiset(rows)
    ensures |Sort(cols, rows)| == |rows|
  {
    if rows != [] {
      var init, last := rows[..|rows| - 1], rows[|rows| - 1];
      assert rows == init + [last];
      SortSorts(cols, init);
      LastIsNew(rows, Sort(cols, init));
      InsertSorts(cols, Sort(cols, init), last);
      assert |multiset(Sort(cols, rows))| == |Sort(cols, rows)|;
    }
  }

  lemma LastIsNew(rows: seq<Row>, arranged: seq<Row>)
    requires DistinctRows(rows) && rows != []
    requires forall r :: r in arranged ==> r in multiset(rows[..|rows| - 1]) || r in rows[..|rows| - 1]
    ensures NewRow(arranged, rows[|rows| - 1])
  {
    forall i | 0 <= i < |arranged| ensures arranged[i].address != rows[|rows| - 1].address {
      assert arranged[i] in arranged;
      assert arranged[i] in rows[..|rows| - 1];
      var k :| 0 <= k < |rows| - 1 && rows[k] == arranged[i];
    }
  }

  /** Rows `from` up to but excluding `to`, as far as they exist. */
  function Page<T>(rows: seq<T>, from: nat, to: nat): seq<T> {
    if from >= to || from >= |rows| then []
    else if to <= |rows| then rows[from..to] else rows[from..]
  }

  // ---------- the row set ----------

  /** The guard of Add as it stands: once more than `limit` rows are kept, rows above the least are dropped. */
  predicate Drops(cols: seq<Column>, limit: nat, rows: seq<Row>, row: Row) {
    |rows| > limit && Less(cols, rows[|rows| - 1], row)
  }

  function Keep(cols: seq<Column>, limit: nat, rows: seq<Row>): seq<Row> {
    if rows == [] then []
    else
      var kept, last := Keep(cols, limit, rows[..|rows| - 1]), rows[|rows| - 1];
      if Drops(cols, limit, kept, last) then kept else Insert(cols, kept, last)
  }

  class SortableRowSet {
    const start: nat
    const limit: nat
    const cols: seq<Column>
    // The ordered set, greatest row first.
    var rows: seq<Row>

    constructor (start: nat, limit: nat, cols: seq<Column>)
      ensures this.start == start && this.limit == limit && this.cols == cols && rows == []
    {
      this.start, this.limit, this.cols, rows := start, limit, cols, [];
    }

    /** After the same rows, one more row is kept as `Keep` says. */
    method Add(row: Row)
      modifies this`rows
      ensures rows == if Drops(cols, limit, old(rows), row) then old(rows) else Insert(cols, old(rows), row)
    {
      if !(|rows| > limit && Less(cols, rows[|rows| - 1], row)) {
        rows := Insert(cols, rows, row);
      }
    }

    method GetRows() returns (res: seq<Row>)
      ensures res == Page(rows, start, limit)
      ensures |res| == if start < limit && start < |rows| then (if limit < |rows| then limit else |rows|) - start else 0
      ensures forall k :: 0 <= k < |res| ==> res[k] == rows[start + k]
    {
      res := [];
      if |rows| >= start {
        var count := 0;
        for i := 0 to |rows|
          invariant count == i
          invariant res == Page(rows[..i], start, limit)
        {
          if count >= start && count < limit {
            res := res + [rows[i]];
          }
          count := count + 1;
        }
        assert rows[..|rows|] == rows;
      }
    }

    method ColumnByName(name: string) returns (index: int)
      ensures -1 <= index < |cols|
      ensures index >= 0 ==> cols[index].name == name && forall i :: 0 <= i < index ==> cols[i].name != name
      ensures index < 0 ==> forall i :: 0 <= i < |cols| ==> cols[i].name != name
    {
      for i := 0 to |cols|
        invariant forall k :: 0 <= k < i ==> cols[k].name != name
      {
        if cols[i].name == name {
          return i;
        }
      }
      index := -1;
    }
  }

  // ---------- the page as written ----------

  lemma {:induction false} BelowAllGoesLast(cols: seq<Column>, rows: seq<Row>, row: Row)
    requires Descending(cols, rows) && NewRow(rows, row)
    requires rows == [] || !Less(cols, rows[|rows| - 1], row)
    ensures Insert(cols, rows, row) == rows + [row]
  {
    if rows != [] {
      LessIsTotal(cols, rows[|rows| - 1], row);
      if |rows| > 1 {
        LessIsTransitive(cols, row, rows[|rows| - 1], rows[0]);
        LessIsTotal(cols, row, rows[0]);
        BelowAllGoesLast(cols, rows[1..], row);
        assert rows == [rows[0]] + rows[1..];
      }
    }
  }

  function Kept(cols: seq<Column>, limit: nat, rows: seq<Row>, row: Row): seq<Row> {
    if Drops(cols, limit, rows, row) then rows else Insert(cols, rows, row)
  }

  /** A full set grows at its lower end only. */
  lemma FullSetGrowsBelow(cols: seq<Column>, limit: nat, rows: seq<Row>, row: Row)
    requires Descending(cols, rows) && NewRow(rows, row)
    ensures Descending(cols, Kept(cols, limit, rows, row))
    ensures forall r :: r in Kept(cols, limit, rows, row) ==> r in rows || r == row
    ensures |rows| <= limit ==> Kept(cols, limit, rows, row) == Insert(cols, rows, row)
    ensures |rows| > limit ==> rows <= Kept(cols, limit, rows, row)
  {
    InsertSorts(cols, rows, row);
    InsertMembers(cols, rows, row);
    if |rows| > limit && !Drops(cols, limit, rows, row) {
      BelowAllGoesLast(cols, rows, row);
    }
  }

  /** The first limit + 1 rows, sorted, stay at the top of the set whatever comes after them. */
  lemma {:induction false} FirstRowsStay(cols: seq<Column>, limit: nat, rows: seq<Row>)
    requires DistinctRows(rows)
    ensures Descending(cols, Keep(cols, limit, rows))
    ensures forall r :: r in Keep(cols, limit, rows) ==> r in rows
    ensures |rows| <= limit + 1 ==> Keep(cols, limit, rows) == Sort(cols, rows) && |Sort(cols, rows)| == |rows|
    ensures |rows| > limit + 1 ==> Sort(cols, rows[..limit + 1]) <= Keep(cols, limit, rows)
    ensures |rows| > limit ==> |Keep(cols, limit, rows)| > limit
  {
    if rows != [] {
      var init, last := rows[..|rows| - 1], rows[|rows| - 1];
      assert rows == init + [last];
      var kept := Keep(cols, limit, init);
      FirstRowsStay(cols, limit, init);
      LastIsNew(rows, kept);
      FullSetGrowsBelow(cols, limit, kept, last);
      assert Keep(cols, limit, rows) == Kept(cols, limit, kept, last);
      SortSorts(cols, rows);
      hide Descending, DistinctRows, NewRow, Less, Drops, Kept, Insert;
      if |rows| > limit + 1 {
        assert init[..limit + 1] == rows[..limit + 1];
        if |init| == limit + 1 {
          assert init[..limit + 1] == init;
        }
      }
    }
  }

  /** The page shown is the page of the sort of the first limit + 1 rows alone. */
  lemma {:induction false} PageAsWritten(cols: seq<Column>, start: nat, limit: nat, rows: seq<Row>)
    requires DistinctRows(rows)
    ensures Page(Keep(cols, limit, rows), start, limit)
            == Page(Sort(cols, Page(rows, 0, limit + 1)), start, limit)
  {
    FirstRowsStay(cols, limit, rows);
    hide Keep, Sort, Descending, DistinctRows;
    if |rows| <= limit + 1 {
      assert Page(rows, 0, limit + 1) == rows;
    } else {
      var kept, top := Keep(cols, limit, rows), Sort(cols, rows[..limit + 1]);
      SortSorts(cols, rows[..limit + 1]);
      assert Page(rows, 0, limit + 1) == rows[..limit + 1];
      PrefixPage(top, kept, start, limit);
    }
  }

  /** Whatever was fed, the rows of a page are shown in order: for any two of them, and the first column that is
      orderable, has an order and has different cells in them, the upper row has the greater cell if that order is
      "desc" and the lesser cell otherwise; where there is no such column, the upper row has the greater address. */
  lemma PageReadsInOrder(cols: seq<Column>, start: nat, limit: nat, rows: seq<Row>, i: nat, j: nat, c: nat)
    requires DistinctRows(rows) && i < j < |Page(Keep(cols, limit, rows), start, limit)| && c <= |cols|
    requires var page := Page(Keep(cols, limit, rows), start, limit);
      && (forall k :: 0 <= k < c && cols[k].orderable && cols[k].order != "" ==>
            Cell(page[i], cols[k].name) == Cell(page[j], cols[k].name))
      && (c < |cols| ==> cols[c].orderable && cols[c].order != ""
                         && Cell(page[i], cols[c].name) != Cell(page[j], cols[c].name))
    ensures var page := Page(Keep(cols, limit, rows), start, limit);
      if c == |cols| then Compare(page[i].address, page[j].address) == 1
      else if cols[c].order == "desc" then Compare(Cell(page[i], cols[c].name), Cell(page[j], cols[c].name)) == 1
      else Compare(Cell(page[i], cols[c].name), Cell(page[j], cols[c].name)) == -1
  {
    FirstRowsStay(cols, limit, rows);
    var kept, page := Keep(cols, limit, rows), Page(Keep(cols, limit, rows), start, limit);
    assert page[i] == kept[start + i] && page[j] == kept[start + j];
    LessByFirstDifference(cols, page[j], page[i], c);
    hide Less, Keep, DistinctRows, Page, Cell;
    CompareFlips(page[i].address, page[j].address);
    if c < |cols| {
      CompareFlips(Cell(page[i], cols[c].name), Cell(page[j], cols[c].name));
    }
  }

  /** Two rows and one column: "asc" shows the lesser name first, "desc" the greater one. */
  lemma TwoNamesInOrder(order: string, limit: nat)
    requires order in {"asc", "desc"} && limit >= 2
    ensures var cols := [Column("name", true, true, order, Search("", false))];
      var a, b := Row(map["name" := "a"], "1"), Row(map["name" := "b"], "2");
      Page(Keep(cols, limit, [a, b]), 0, limit) == if order == "desc" then [b, a] else [a, b]
  {
    var cols := [Column("name", true, true, order, Search("", false))];
    var a, b := Row(map["name" := "a"], "1"), Row(map["name" := "b"], "2");
    assert [a, b][..1] == [a] && [a][..0] == [];
    assert Keep(cols, limit, [a]) == [a];
    assert Compare("a", "b") == -1;
    LessByFirstDifference(cols, a, b, 0);
    LessByFirstDifference(cols, b, a, 0);
    assert [a][1..] == [] && Insert(cols, [], b) == [b];
    assert Insert(cols, [a], b) == if order == "desc" then [b, a] else [a, b];
    assert Keep(cols, limit, [a, b]) == Insert(cols, [a], b);
  }

  lemma PrefixPage<T>(top: seq<T>, rows: seq<T>, from: nat, to: nat)
    requires top <= rows && (to <= |top| || top == rows)
    ensures Page(rows, from, to) == Page(top, from, to)
  {
  }

  // ---------- exactly when that is the page of all rows ----------

  /** Inserting below position `top` leaves the rows before it in place. */
  lemma {:induction false} InsertBelow(cols: seq<Column>, rows: seq<Row>, row: Row, top: nat)
    requires Descending(cols, rows) && NewRow(rows, row)
    requires 0 < top <= |rows| && Less(cols, row, rows[top - 1])
    ensures |Insert(cols, rows, row)| >= top && Insert(cols, rows, row)[..top] == rows[..top]
  {
    if top > 1 {
      LessIsTransitive(cols, row, rows[top - 1], rows[0]);
      LessIsTotal(cols, row, rows[0]);
      InsertBelow(cols, rows[1..], row, top - 1);
      assert rows[..top] == [rows[0]] + rows[1..][..top - 1];
      assert ([rows[0]] + Insert(cols, rows[1..], row))[..top] == [rows[0]] + Insert(cols, rows[1..], row)[..top - 1];
    } else {
      LessIsTotal(cols, row, rows[0]);
    }
  }

  /** Inserting moves a row down by one place if the new row is greater, and not at all otherwise. */
  lemma {:induction false} InsertShifts(cols: seq<Column>, rows: seq<Row>, row: Row, at: nat)
    requires Descending(cols, rows) && NewRow(rows, row) && at < |rows|
    ensures var after := Insert(cols, rows, row); var place := if Less(cols, rows[at], row) then at + 1 else at;
      place < |after| && after[place] == rows[at]
  {
    LessIsTotal(cols, rows[0], row);
    if Less(cols, rows[0], row) {
      if at > 0 {
        LessIsTransitive(cols, rows[at], rows[0], row);
      }
    } else if at > 0 {
      InsertShifts(cols, rows[1..], row, at - 1);
    }
  }

  /** How many of the rows from position `first` on are greater than `p`. */
  function Greater(cols: seq<Column>, rows: seq<Row>, first: nat, p: Row): nat {
    if |rows| <= first then 0
    else Greater(cols, rows[..|rows| - 1], first, p) + if Less(cols, p, rows[|rows| - 1]) then 1 else 0
  }

  lemma {:induction false} GreaterCounts(cols: seq<Column>, rows: seq<Row>, first: nat, p: Row, i: nat)
    requires first <= i < |rows| && Less(cols, p, rows[i])
    ensures Greater(cols, rows, first, p) > 0
  {
    if i < |rows| - 1 {
      GreaterCounts(cols, rows[..|rows| - 1], first, p, i);
    }
  }

  /** One more row moves a row down if it is greater. */
  lemma OneRowShifts(cols: seq<Column>, rows: seq<Row>, p: Row, at: nat)
    requires DistinctRows(rows) && rows != []
    requires at < |Sort(cols, rows[..|rows| - 1])| && Sort(cols, rows[..|rows| - 1])[at] == p
    ensures var after := at + if Less(cols, p, rows[|rows| - 1]) then 1 else 0;
      after < |Sort(cols, rows)| && Sort(cols, rows)[after] == p
  {
    var init, last := rows[..|rows| - 1], rows[|rows| - 1];
    SortSorts(cols, init);
    LastIsNew(rows, Sort(cols, init));
    assert Sort(cols, rows) == Insert(cols, Sort(cols, init), last);
    hide Insert, Less, Sort, Descending, DistinctRows, NewRow;
    InsertShifts(cols, Sort(cols, init), last, at);
  }

  lemma ShorterFacts(cols: seq<Column>, rows: seq<Row>, first: nat, p: Row)
    requires DistinctRows(rows) && first < |rows|
    ensures var init, last := rows[..|rows| - 1], rows[|rows| - 1];
      && DistinctRows(init) && init[..first] == rows[..first]
      && Greater(cols, rows, first, p) == Greater(cols, init, first, p) + if Less(cols, p, last) then 1 else 0
  {
    hide Less;
  }

  /** In the sort of a longer list, a row moves down by the number of greater rows that were added. */
  lemma {:induction false} LaterRowsShift(cols: seq<Column>, rows: seq<Row>, first: nat, p: Row, place: nat)
    requires DistinctRows(rows) && first <= |rows|
    requires place < |Sort(cols, rows[..first])| && Sort(cols, rows[..first])[place] == p
    ensures var at := place + Greater(cols, rows, first, p);
      at < |Sort(cols, rows)| && Sort(cols, rows)[at] == p
    decreases |rows|
  {
    assert |rows| == first ==> Greater(cols, rows, first, p) == 0;
    hide *;
    if |rows| == first {
      assert rows[..first] == rows;
    } else {
      ShorterFacts(cols, rows, first, p);
      var init := rows[..|rows| - 1];
      LaterRowsShift(cols, init, first, p, place);
      OneRowShifts(cols, rows, p, place + Greater(cols, init, first, p));
    }
  }

  lemma {:induction false} LaterRowsBelow(cols: seq<Column>, rows: seq<Row>, first: nat, top: nat)
    requires DistinctRows(rows) && first <= |rows| && 0 < top <= first
    requires |Sort(cols, rows[..first])| == first
    requires forall i :: first <= i < |rows| ==> Less(cols, rows[i], Sort(cols, rows[..first])[top - 1])
    ensures |Sort(cols, rows)| == |rows| && Sort(cols, rows)[..top] == Sort(cols, rows[..first])[..top]
    decreases |rows|
  {
    SortSorts(cols, rows);
    if |rows| == first {
      assert rows[..first] == rows;
    } else {
      var init, last := rows[..|rows| - 1], rows[|rows| - 1];
      assert init[..first] == rows[..first];
      LaterRowsBelow(cols, init, first, top);
      SortSorts(cols, init);
      LastIsNew(rows, Sort(cols, init));
      assert Sort(cols, init)[top - 1] == Sort(cols, init)[..top][top - 1];
      InsertBelow(cols, Sort(cols, init), last, top);
    }
  }

  /** The page shown is the page of the sort of all rows exactly when it is empty by its bounds or every row
      after the first limit + 1 is less than the last row it can show. */
  lemma PageIsTopPageIff(cols: seq<Column>, start: nat, limit: nat, rows: seq<Row>)
    requires DistinctRows(rows) && |rows| > limit + 1
    ensures |Sort(cols, rows[..limit + 1])| == limit + 1
    ensures Page(Keep(cols, limit, rows), start, limit) == Page(Sort(cols, rows), start, limit)
            <==> start >= limit
                 || forall i :: limit < i < |rows| ==> Less(cols, rows[i], Sort(cols, rows[..limit + 1])[limit - 1])
  {
    var first := rows[..limit + 1];
    assert Page(rows, 0, limit + 1) == first;
    PageAsWritten(cols, start, limit, rows);
    SortSorts(cols, first);
    hide Sort, Keep, Descending, DistinctRows, Less;
    if start < limit {
      var p := Sort(cols, first)[limit - 1];
      if forall i :: limit < i < |rows| ==> Less(cols, rows[i], p) {
        TopPageStays(cols, start, limit, rows);
      } else {
        var i :| limit < i < |rows| && !Less(cols, rows[i], p);
        TopPageChanges(cols, start, limit, rows, i);
      }
    }
  }

  lemma TopPageStays(cols: seq<Column>, start: nat, limit: nat, rows: seq<Row>)
    requires DistinctRows(rows) && |rows| > limit + 1 && start < limit
    requires |Sort(cols, rows[..limit + 1])| == limit + 1
    requires forall i :: limit < i < |rows| ==> Less(cols, rows[i], Sort(cols, rows[..limit + 1])[limit - 1])
    ensures Page(Sort(cols, rows[..limit + 1]), start, limit) == Page(Sort(cols, rows), start, limit)
  {
    var top, full := Sort(cols, rows[..limit + 1]), Sort(cols, rows);
    LaterRowsBelow(cols, rows, limit + 1, limit);
    hide Sort, DistinctRows, Less;
    PrefixPage(full[..limit], full, start, limit);
    PrefixPage(top[..limit], top, start, limit);
  }

  lemma TopPageChanges(cols: seq<Column>, start: nat, limit: nat, rows: seq<Row>, i: nat)
    requires DistinctRows(rows) && |rows| > limit + 1 && start < limit
    requires |Sort(cols, rows[..limit + 1])| == limit + 1
    requires limit < i < |rows| && !Less(cols, rows[i], Sort(cols, rows[..limit + 1])[limit - 1])
    ensures Page(Sort(cols, rows[..limit + 1]), start, limit) != Page(Sort(cols, rows), start, limit)
  {
    var top, full := Sort(cols, rows[..limit + 1]), Sort(cols, rows);
    hide *;
    var q := MovesDown(cols, rows, limit + 1, i, limit - 1);
    SortSorts(cols, rows);
    UpperIsAnother(cols, full, limit - 1, q);
    PagesDiffer(top, full, start, limit);
  }

  /** A later row that is greater moves a row down. */
  lemma MovesDown(cols: seq<Column>, rows: seq<Row>, first: nat, i: nat, place: nat) returns (q: nat)
    requires DistinctRows(rows) && first <= i < |rows| && place < |Sort(cols, rows[..first])|
    requires !Less(cols, rows[i], Sort(cols, rows[..first])[place])
    ensures place < q < |Sort(cols, rows)| && Sort(cols, rows)[q] == Sort(cols, rows[..first])[place]
  {
    hide *;
    var p := Sort(cols, rows[..first])[place];
    LaterIsGreater(cols, rows, first, i, p);
    GreaterCounts(cols, rows, first, p, i);
    LaterRowsShift(cols, rows, first, p, place);
    q := place + Greater(cols, rows, first, p);
  }

  lemma UpperIsAnother(cols: seq<Column>, rows: seq<Row>, i: nat, j: nat)
    requires Descending(cols, rows) && i < j < |rows|
    ensures rows[i] != rows[j]
  {
    LessIsTotal(cols, rows[j], rows[i]);
    hide Less;
  }

  lemma PagesDiffer<T>(a: seq<T>, b: seq<T>, start: nat, limit: nat)
    requires start < limit <= |a| && limit <= |b| && a[limit - 1] != b[limit - 1]
    ensures Page(a, start, limit) != Page(b, start, limit)
  {
    assert Page(a, start, limit)[limit - 1 - start] == a[limit - 1];
    assert Page(b, start, limit)[limit - 1 - start] == b[limit - 1];
  }

  lemma LaterIsGreater(cols: seq<Column>, rows: seq<Row>, first: nat, i: nat, p: Row)
    requires DistinctRows(rows) && first <= i < |rows|
    requires p in Sort(cols, rows[..first]) && !Less(cols, rows[i], p)
    ensures Less(cols, p, rows[i])
  {
    SortSorts(cols, rows[..first]);
    assert p in multiset(Sort(cols, rows[..first]));
    assert p in rows[..first];
    var k :| 0 <= k < first && rows[k] == p;
    LessIsTotal(cols, rows[i], p);
  }

  /** A feed that comes in ascending order, longer than limit + 1, always shows a wrong page. */
  lemma RisingFeedShowsWrongPage(cols: seq<Column>, start: nat, limit: nat, rows: seq<Row>)
    requires DistinctRows(rows) && |rows| > limit + 1 && start < limit
    requires forall i, j :: 0 <= i < j < |rows| ==> Less(cols, rows[i], rows[j])
    ensures Page(Keep(cols, limit, rows), start, limit) != Page(Sort(cols, rows), start, limit)
  {
    PageIsTopPageIff(cols, start, limit, rows);
    var first := rows[..limit + 1];
    SortSorts(cols, first);
    var p := Sort(cols, first)[limit - 1];
    assert p in multiset(Sort(cols, first));
    assert p in first;
    LessIsTotal(cols, p, rows[limit + 1]);
    hide Sort, Keep, Descending, DistinctRows, Page;
  }

  /** Three rows whose data lie one behind the other, and a page of one: the second row is shown, not the third. */
  lemma ThirdRowIsMissed(a: Row, b: Row, c: Row)
    requires a.address == "1" && b.address == "2" && c.address == "3"
    ensures Page(Keep([], 1, [a, b, c]), 0, 1) == [b]
    ensures Page(Sort([], [a, b, c]), 0, 1) == [c]
  {
    var two, three := [a, b], [a, b, c];
    assert two[..1] == [a] && two[..1][..0] == [] && three[..2] == two;
    assert Sort([], [a]) == [a];
    assert Sort([], two) == [b, a];
    assert Sort([], three) == [c, b, a];
    assert Page(three, 0, 2) == two;
    PageAsWritten([], 0, 1, three);
  }

  // ---------- the variant with the guard's comparison swapped ----------

  /** Not what the code does: the guard that drops rows below the least one instead of above it. */
  predicate DropsSwapped(cols: seq<Column>, limit: nat, rows: seq<Row>, row: Row) {
    |rows| > limit && Less(cols, row, rows[|rows| - 1])
  }

  function KeepSwapped(cols: seq<Column>, limit: nat, rows: seq<Row>): seq<Row> {
    if rows == [] then []
    else
      var kept, last := KeepSwapped(cols, limit, rows[..|rows| - 1]), rows[|rows| - 1];
      if DropsSwapped(cols, limit, kept, last) then kept else Insert(cols, kept, last)
  }

  /** The first rows after an insertion depend on the first rows before it only. */
  lemma {:induction false} InsertPrefix(cols: seq<Column>, a: seq<Row>, b: seq<Row>, row: Row, top: nat)
    requires Descending(cols, a) && Descending(cols, b) && NewRow(a, row) && NewRow(b, row)
    requires top <= |a| && top <= |b| && a[..top] == b[..top]
    ensures |Insert(cols, a, row)| >= top && |Insert(cols, b, row)| >= top
    ensures Insert(cols, a, row)[..top] == Insert(cols, b, row)[..top]
  {
    InsertSorts(cols, a, row);
    InsertSorts(cols, b, row);
    InsertLength(cols, a, row);
    InsertLength(cols, b, row);
    if top > 0 {
      assert a[0] == a[..top][0] == b[..top][0] == b[0];
      assert a[1..][..top - 1] == a[..top][1..] == b[..top][1..] == b[1..][..top - 1];
      LessIsTotal(cols, a[0], row);
      if Less(cols, a[0], row) {
        assert ([row] + a)[..top] == [row] + a[..top][..top - 1];
        assert ([row] + b)[..top] == [row] + b[..top][..top - 1];
      } else {
        InsertPrefix(cols, a[1..], b[1..], row, top - 1);
        assert ([a[0]] + Insert(cols, a[1..], row))[..top] == [a[0]] + Insert(cols, a[1..], row)[..top - 1];
        assert ([b[0]] + Insert(cols, b[1..], row))[..top] == [b[0]] + Insert(cols, b[1..], row)[..top - 1];
      }
    }
  }

  lemma InsertLength(cols: seq<Column>, rows: seq<Row>, row: Row)
    requires Descending(cols, rows) && NewRow(rows, row)
    ensures |Insert(cols, rows, row)| == |rows| + 1
  {
    InsertSorts(cols, rows, row);
    assert |multiset(Insert(cols, rows, row))| == |Insert(cols, rows, row)|;
  }

  function KeptSwapped(cols: seq<Column>, limit: nat, rows: seq<Row>, row: Row): seq<Row> {
    if DropsSwapped(cols, limit, rows, row) then rows else Insert(cols, rows, row)
  }

  function Top(limit: nat, count: nat): nat {
    if count <= limit then count else limit + 1
  }

  lemma {:induction false} SwappedKeepsTop(cols: seq<Column>, limit: nat, rows: seq<Row>)
    requires DistinctRows(rows)
    ensures var kept := KeepSwapped(cols, limit, rows); var top := Top(limit, |rows|);
      && Descending(cols, kept) && (forall r :: r in kept ==> r in rows)
      && top <= |kept| && |Sort(cols, rows)| == |rows|
      && kept[..top] == Sort(cols, rows)[..top]
      && (|rows| <= limit ==> |kept| == |rows|)
  {
    SortSorts(cols, rows);
    if rows != [] {
      var init, last := rows[..|rows| - 1], rows[|rows| - 1];
      assert rows == init + [last];
      var kept := KeepSwapped(cols, limit, init);
      SwappedKeepsTop(cols, limit, init);
      LastIsNew(rows, kept);
      SortSorts(cols, init);
      LastIsNew(rows, Sort(cols, init));
      assert KeepSwapped(cols, limit, rows) == KeptSwapped(cols, limit, kept, last);
      assert Sort(cols, rows) == Insert(cols, Sort(cols, init), last);
      hide Descending, DistinctRows, NewRow, Less, DropsSwapped, KeptSwapped, Insert, Sort, KeepSwapped;
      SwappedStep(cols, limit, init, kept, last);
    }
  }

  lemma SwappedStep(cols: seq<Column>, limit: nat, init: seq<Row>, kept: seq<Row>, last: Row)
    requires Descending(cols, kept) && NewRow(kept, last)
    requires Descending(cols, Sort(cols, init)) && NewRow(Sort(cols, init), last) && |Sort(cols, init)| == |init|
    requires var top := Top(limit, |init|);
      top <= |kept| && kept[..top] == Sort(cols, init)[..top] && (|init| <= limit ==> |kept| == |init|)
    ensures var after := KeptSwapped(cols, limit, kept, last);
      var sorted := Insert(cols, Sort(cols, init), last);
      var top := Top(limit, |init| + 1);
      && Descending(cols, after) && (forall r :: r in after ==> r in kept || r == last)
      && top <= |after| && top <= |sorted| && after[..top] == sorted[..top]
      && (|init| + 1 <= limit ==> |after| == |init| + 1)
  {
    var full := Sort(cols, init);
    InsertLength(cols, full, last);
    InsertLength(cols, kept, last);
    InsertSorts(cols, kept, last);
    InsertMembers(cols, kept, last);
    hide Insert, Sort, Less, Descending, NewRow;
    if |init| <= limit {
      assert kept == kept[..|init|] && full == full[..|init|];
    } else if DropsSwapped(cols, limit, kept, last) {
      DroppedIsBelow(cols, limit, kept, full, last);
    } else {
      InsertPrefix(cols, kept, full, last, limit + 1);
    }
  }

  lemma InsertMembers(cols: seq<Column>, rows: seq<Row>, row: Row)
    requires Descending(cols, rows) && NewRow(rows, row)
    ensures forall r :: r in Insert(cols, rows, row) ==> r in rows || r == row
  {
    InsertSorts(cols, rows, row);
    hide Insert, Descending, NewRow;
    forall r | r in Insert(cols, rows, row) ensures r in rows || r == row {
      assert r in multiset(Insert(cols, rows, row));
    }
  }

  lemma DroppedIsBelow(cols: seq<Column>, limit: nat, kept: seq<Row>, full: seq<Row>, last: Row)
    requires Descending(cols, kept) && Descending(cols, full) && NewRow(full, last)
    requires DropsSwapped(cols, limit, kept, last)
    requires limit < |full| && kept[..limit + 1] == full[..limit + 1]
    ensures |Insert(cols, full, last)| > limit && Insert(cols, full, last)[..limit + 1] == full[..limit + 1]
  {
    if limit < |kept| - 1 {
      LessIsTransitive(cols, last, kept[|kept| - 1], kept[limit]);
    }
    assert kept[limit] == kept[..limit + 1][limit] == full[limit];
    hide Insert, Less;
    InsertBelow(cols, full, last, limit + 1);
  }

  /** With the comparison swapped, the page is the page of the sort of all rows, however many there are. */
  lemma SwappedPageIsTopPage(cols: seq<Column>, start: nat, limit: nat, rows: seq<Row>)
    requires DistinctRows(rows)
    ensures Page(KeepSwapped(cols, limit, rows), start, limit) == Page(Sort(cols, rows), start, limit)
  {
    SwappedKeepsTop(cols, limit, rows);
    var kept, full := KeepSwapped(cols, limit, rows), Sort(cols, rows);
    hide KeepSwapped, Sort, Descending, DistinctRows;
    if |rows| <= limit {
      assert kept == kept[..|rows|] && full == full[..|rows|];
    } else {
      PrefixPage(kept[..limit + 1], kept, start, limit);
      PrefixPage(full[..limit + 1], full, start, limit);
    }
  }

  /** The first `pages` pages of the variant, each computed by its own row set, one after the other. */
  function SwappedPages(cols: seq<Column>, length: nat, pages: nat, rows: seq<Row>): seq<Row> {
    if pages == 0 then []
    else SwappedPages(cols, length, pages - 1, rows)
         + Page(KeepSwapped(cols, pages * length, rows), (pages - 1) * length, pages * length)
  }

  lemma {:induction false} SwappedPagesConcatenate(cols: seq<Column>, length: nat, pages: nat, rows: seq<Row>)
    requires DistinctRows(rows)
    ensures SwappedPages(cols, length, pages, rows) == Page(Sort(cols, rows), 0, pages * length)
  {
    if pages > 0 {
      hide KeepSwapped, Sort, Page, DistinctRows;
      OneMorePage(length, pages);
      SwappedPagesConcatenate(cols, length, pages - 1, rows);
      SwappedPageIsTopPage(cols, (pages - 1) * length, pages * length, rows);
      PagesMeet(Sort(cols, rows), (pages - 1) * length, pages * length);
    } else {
      assert 0 * length == 0;
      hide Sort, DistinctRows;
    }
  }

  lemma OneMorePage(length: nat, pages: nat)
    requires pages > 0
    ensures 0 <= (pages - 1) * length <= pages * length
  {
    assert pages * length == (pages - 1) * length + length;
  }

  lemma PagesMeet<T>(rows: seq<T>, middle: nat, to: nat)
    requires middle <= to
    ensures Page(rows, 0, middle) + Page(rows, middle, to) == Page(rows, 0, to)
  {
  }
}
