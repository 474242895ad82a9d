/** Decoding a table's search request from a form, and the form it comes from. */
module SearchRequest {
  import opened Wrappers
  import opened Columns
  import opened Numerals
  import opened KeyParser
  import opened MapOrder
  import opened FormTree

  /** Columns that no form key names stay missing; so does the search of a request without columns. */
  datatype Request = Request(draw: int, columns: seq<Option<Column>>, start: int, length: int, search: Option<Search>)

  /** The answer of a decoder that has found no columns, or no form at all. */
  const EMPTY_REQUEST := Request(0, [], 0, 0, None)

  // ---------- reading values of unknown type ----------

  function AsString(f: Forest, key: string): Result<string> {
    if key in f && f[key].Leaf? then Ok(f[key].value) else Panic
  }

  function AsMap(f: Forest, key: string): Result<Forest> {
    if key in f && f[key].Node? then Ok(f[key].children) else Panic
  }

  function ToString(t: Tree): string {
    if t.Leaf? then t.value else ""
  }

  function ToInt(f: Forest, key: string): int {
    if key in f && f[key].Leaf? then ParseInt(f[key].value) else 0
  }

  function ToBool(f: Forest, key: string): bool {
    key in f && f[key].Leaf? && f[key].value in {"1", "t", "T", "TRUE", "true", "True"}
  }

  function NewSearch(f: Forest): Result<Search> {
    var value :- AsString(f, "value");
    Ok(Search(value, ToBool(f, "regexp")))
  }

  function NewColumn(f: Forest, order: string): Result<Column> {
    var name :- AsString(f, "data");
    var searchForm :- AsMap(f, "search");
    var search :- NewSearch(searchForm);
    Ok(Column(name, ToBool(f, "searchable"), ToBool(f, "orderable"), order, search))
  }

  // ---------- ordering and columns, for a given iteration order ----------

  /** The direction of each column named by an order entry that has both a column and a direction. */
  function Ordering(orders: Forest, visited: seq<string>): Result<map<string, string>>
    requires forall key :: key in visited ==> key in orders
  {
    if visited == [] then Ok(map[])
    else
      var before :- Ordering(orders, visited[..|visited| - 1]);
      var entry :- AsMap(orders, visited[|visited| - 1]);
      if "column" in entry && "dir" in entry
      then Ok(before[ToString(entry["column"]) := ToString(entry["dir"])])
      else Ok(before)
  }

  function Direction(ordering: map<string, string>, key: string): string {
    if key in ordering then ordering[key] else ""
  }

  /** The columns named by the visited keys, each in the slot its key numbers. */
  function Slots(columns: Forest, ordering: map<string, string>, visited: seq<string>): (r: Result<seq<Option<Column>>>)
    requires forall key :: key in visited ==> key in columns
    ensures r.Ok? ==> |r.value| == |columns|
  {
    if visited == [] then Ok(seq(|columns|, i => None))
    else
      var key := visited[|visited| - 1];
      var before :- Slots(columns, ordering, visited[..|visited| - 1]);
      var form :- AsMap(columns, key);
      var column :- NewColumn(form, Direction(ordering, key));
      var index := ParseInt(key);
      if 0 <= index < |columns| then Ok(before[index := Some(column)]) else Panic
  }

  method ParseOrdering(formValues: Forest) returns (res: Result<map<string, string>>, visited: seq<string>)
    ensures "order" !in formValues ==> res == Ok(map[])
    ensures "order" in formValues && AsMap(formValues, "order").Panic? ==> res == Panic
    ensures "order" in formValues && AsMap(formValues, "order").Ok? ==>
              var orders := AsMap(formValues, "order").value;
              Enumerates(visited, orders) && res == Ordering(orders, visited)
  {
    res, visited := Ok(map[]), [];
    if "order" in formValues {
      if formValues["order"].Leaf? {
        return Panic, [];
      }
      var orders := formValues["order"].children;
      visited := Range(orders);
      for i := 0 to |visited|
        invariant res == Ordering(orders, visited[..i])
      {
        var key := visited[i];
        assert visited[..i + 1][..i] == visited[..i];
        if res.Ok? {
          if orders[key].Leaf? {
            res := Panic;
          } else {
            var mapValue := orders[key].children;
            if "column" in mapValue && "dir" in mapValue {
              res := Ok(res.value[ToString(mapValue["column"]) := ToString(mapValue["dir"])]);
            }
          }
        }
      }
      assert visited[..|visited|] == visited;
    }
  }

  method FillColumns(columns: Forest, ordering: map<string, string>)
    returns (res: Result<seq<Option<Column>>>, visited: seq<string>)
    ensures Enumerates(visited, columns) && res == Slots(columns, ordering, visited)
  {
    visited := Range(columns);
    res := Ok(seq(|columns|, i => None));
    assert forall key :: key in visited ==> key in columns;
    hide Enumerates, NewColumn, ParseInt, Direction;
    for i := 0 to |visited|
      invariant res == Slots(columns, ordering, visited[..i])
    {
      var key := visited[i];
      assert visited[..i + 1][..i] == visited[..i];
      if res.Ok? {
        var form := AsMap(columns, key);
        if form.Ok? {
          var column := NewColumn(form.value, Direction(ordering, key));
          var index := ParseInt(key);
          if column.Ok? && 0 <= index < |columns| {
            res := Ok(res.value[index := Some(column.value)]);
          } else {
            res := Panic;
          }
        } else {
          res := Panic;
        }
      }
    }
    assert visited[..|visited|] == visited;
  }

  /** The request a form tree stands for; `ordersVisited` and `columnsVisited` are the iteration orders. */
  function Decode(formValues: Forest, ordersVisited: seq<string>, columnsVisited: seq<string>): Result<Request>
    requires "order" in formValues && formValues["order"].Node? ==>
               forall key :: key in ordersVisited ==> key in formValues["order"].children
    requires "columns" in formValues && formValues["columns"].Node? ==>
               forall key :: key in columnsVisited ==> key in formValues["columns"].children
  {
    var ordering :- if "order" !in formValues then Ok(map[])
                    else if formValues["order"].Leaf? then Panic
                    else Ordering(formValues["order"].children, ordersVisited);
    if "columns" !in formValues then Ok(EMPTY_REQUEST)
    else
      var columnsList :- AsMap(formValues, "columns");
      var columns :- Slots(columnsList, ordering, columnsVisited);
      var searchForm :- AsMap(formValues, "search");
      var search :- NewSearch(searchForm);
      Ok(Request(ToInt(formValues, "draw"), columns, ToInt(formValues, "start"), ToInt(formValues, "length"),
                 Some(search)))
  }

  /** Where the decoder finds what it answers: numbers and flags at their keys, or zero and false without them; the
      search under `search[value]` and `search[regexp]`, which it cannot do without. */
  lemma DecodedFields(f: Forest, ordersVisited: seq<string>, columnsVisited: seq<string>)
    requires "order" in f && f["order"].Node? ==> forall key :: key in ordersVisited ==> key in f["order"].children
    requires "columns" in f && f["columns"].Node? ==>
               forall key :: key in columnsVisited ==> key in f["columns"].children
    requires Decode(f, ordersVisited, columnsVisited).Ok? && "columns" in f
    ensures var r := Decode(f, ordersVisited, columnsVisited).value;
      && f["columns"].Node? && |r.columns| == |f["columns"].children|
      && r.draw == (if "draw" in f && f["draw"].Leaf? then ParseInt(f["draw"].value) else 0)
      && r.start == (if "start" in f && f["start"].Leaf? then ParseInt(f["start"].value) else 0)
      && r.length == (if "length" in f && f["length"].Leaf? then ParseInt(f["length"].value) else 0)
      && "search" in f && f["search"].Node? && r.search.Some?
      && var search := f["search"].children;
         && "value" in search && search["value"] == Leaf(r.search.value.value)
         && (r.search.value.regexp
             <==> "regexp" in search && search["regexp"].Leaf?
                  && search["regexp"].value in {"1", "t", "T", "TRUE", "true", "True"})
  {
    hide ParseInt, Ordering, Slots;
  }

  /** And a column's: its name under `data`, its flags, and its own search. */
  lemma ColumnFields(f: Forest, order: string)
    requires NewColumn(f, order).Ok?
    ensures var column := NewColumn(f, order).value;
      && "data" in f && f["data"] == Leaf(column.name) && column.order == order
      && (column.searchable
          <==> "searchable" in f && f["searchable"].Leaf?
               && f["searchable"].value in {"1", "t", "T", "TRUE", "true", "True"})
      && (column.orderable
          <==> "orderable" in f && f["orderable"].Leaf?
               && f["orderable"].value in {"1", "t", "T", "TRUE", "true", "True"})
      && "search" in f && f["search"].Node?
      && var search := f["search"].children;
         && "value" in search && search["value"] == Leaf(column.search.value)
         && (column.search.regexp
             <==> "regexp" in search && search["regexp"].Leaf?
                  && search["regexp"].value in {"1", "t", "T", "TRUE", "true", "True"})
  {
  }

  /** The entry visited last gives its column its direction, if it has both as plain values. */
  lemma LastOrderCounts(orders: Forest, visited: seq<string>, key: string, column: string, dir: string)
    requires key in orders && forall k :: k in visited ==> k in orders
    requires Ordering(orders, visited).Ok? && orders[key].Node?
    requires "column" in orders[key].children && orders[key].children["column"] == Leaf(column)
    requires "dir" in orders[key].children && orders[key].children["dir"] == Leaf(dir)
    ensures Ordering(orders, visited + [key]) == Ok(Ordering(orders, visited).value[column := dir])
  {
    assert (visited + [key])[..|visited|] == visited;
  }

  /** What the decoder may answer for a form tree, its two loops visiting the keys in the given orders. */
  ghost predicate Answers(f: Forest, ordersVisited: seq<string>, columnsVisited: seq<string>, res: Result<Request>) {
    && ("order" in f && f["order"].Node? ==> Enumerates(ordersVisited, f["order"].children))
    && ("columns" in f && f["columns"].Node? ==> Enumerates(columnsVisited, f["columns"].children))
    && res == Decode(f, ordersVisited, columnsVisited)
  }

  /** What the decoder may answer for form values visited in the given order. */
  ghost predicate Outcome(values: map<string, seq<string>>, formOrder: seq<string>, ordersVisited: seq<string>,
                          columnsVisited: seq<string>, res: Result<Request>)
  {
    && Enumerates(formOrder, values)
    && match Build(EntriesOf(values, formOrder))
       case Panic => res == Panic
       case Ok(f) => Answers(f, ordersVisited, columnsVisited, res)
  }

  /** A request method other than GET and POST has no form values. */
  method NewSearchRequest(formValuesSent: Option<map<string, seq<string>>>)
    returns (res: Result<Request>, formOrder: seq<string>, ordersVisited: seq<string>, columnsVisited: seq<string>)
    ensures match formValuesSent
            case None => res == Ok(EMPTY_REQUEST)
            case Some(values) => Outcome(values, formOrder, ordersVisited, columnsVisited, res)
  {
    ordersVisited, columnsVisited := [], [];
    if formValuesSent.None? {
      return Ok(EMPTY_REQUEST), [], [], [];
    }
    var tree;
    tree, formOrder := TreePostFormValues(formValuesSent.value);
    if tree.Panic? {
      return Panic, formOrder, [], [];
    }
    var formValues := tree.value;
    hide Build, EntriesOf, Enumerates, Ordering, Slots;
    res, ordersVisited, columnsVisited := DecodeTree(formValues);
  }

  method DecodeTree(formValues: Forest)
    returns (res: Result<Request>, ordersVisited: seq<string>, columnsVisited: seq<string>)
    ensures Answers(formValues, ordersVisited, columnsVisited, res)
  {
    var ordering;
    ordering, ordersVisited := ParseOrdering(formValues);
    columnsVisited := [];
    hide Ordering, Slots, NewSearch;
    if "columns" !in formValues || formValues["columns"].Leaf? || ordering.Panic? {
      if "columns" in formValues && formValues["columns"].Node? {
        columnsVisited := Range(formValues["columns"].children);
      }
      hide Enumerates;
      res := if ordering.Ok? && "columns" !in formValues then Ok(EMPTY_REQUEST) else Panic;
      return;
    }
    var columnsList := formValues["columns"].children;
    var columns;
    columns, columnsVisited := FillColumns(columnsList, ordering.value);
    hide Enumerates;
    var searchForm := AsMap(formValues, "search");
    if columns.Panic? || searchForm.Panic? {
      res := Panic;
      return;
    }
    var search := NewSearch(searchForm.value);
    if search.Panic? {
      res := Panic;
      return;
    }
    res := Ok(Request(ToInt(formValues, "draw"), columns.value, ToInt(formValues, "start"),
                      ToInt(formValues, "length"), Some(search.value)));
  }

  // ---------- the form of a request ----------

  /** A request as a client has it; `orders` lists the ordering columns by priority. */
  datatype Query = Query(draw: int, columns: seq<Column>, orders: seq<nat>, start: int, length: int, search: Search)

  /** The ordering columns are exactly those with a direction; numbers fit 64 bits. */
  ghost predicate WellFormed(q: Query) {
    && FitsInt64(|q.columns|)
    && FitsInt64(q.draw) && FitsInt64(q.start) && FitsInt64(q.length)
    && (forall j :: 0 <= j < |q.orders| ==> q.orders[j] < |q.columns|)
    && (forall i: nat :: i < |q.columns| && q.columns[i].order != "" ==> i in q.orders)
  }

  function Bool(b: bool): string {
    if b then "true" else "false"
  }

  function SearchForm(s: Search): Forest {
    map["value" := Leaf(s.value), "regexp" := Leaf(Bool(s.regexp))]
  }

  function ColumnForm(c: Column): Forest {
    map["data" := Leaf(c.name), "searchable" := Leaf(Bool(c.searchable)), "orderable" := Leaf(Bool(c.orderable)),
        "search" := Node(SearchForm(c.search))]
  }

  /** Items filed under the numerals of their positions. */
  function Numbered<T>(items: seq<T>): map<string, T> {
    if items == [] then map[]
    else Numbered(items[..|items| - 1])[PrintNat(|items| - 1) := items[|items| - 1]]
  }

  function ColumnForms(columns: seq<Column>): Forest {
    Numbered(seq(|columns|, i requires 0 <= i < |columns| => Node(ColumnForm(columns[i]))))
  }

  function OrderForm(q: Query, column: nat): Forest
    requires column < |q.columns|
  {
    map["column" := Leaf(PrintNat(column)), "dir" := Leaf(q.columns[column].order)]
  }

  function OrderForms(q: Query): Forest
    requires forall j :: 0 <= j < |q.orders| ==> q.orders[j] < |q.columns|
  {
    Numbered(seq(|q.orders|, j requires 0 <= j < |q.orders| => Node(OrderForm(q, q.orders[j]))))
  }

  /** The form of a request, as a tree: `columns[i][...]`, `order[j][column]`, `order[j][dir]`, paging, search. */
  function Encode(q: Query): Forest
    requires forall j :: 0 <= j < |q.orders| ==> q.orders[j] < |q.columns|
  {
    var base: Forest := map["draw" := Leaf(PrintInt(q.draw)), "start" := Leaf(PrintInt(q.start)),
                            "length" := Leaf(PrintInt(q.length)), "search" := Node(SearchForm(q.search))];
    var full := if q.columns == [] then base else base["columns" := Node(ColumnForms(q.columns))];
    if q.orders == [] then full else full["order" := Node(OrderForms(q))]
  }

  ghost predicate Numbers(key: string, count: nat) {
    exists i: nat :: i < count && key == PrintNat(i)
  }

  lemma NumberOf(key: string, count: nat) returns (i: nat)
    requires Numbers(key, count)
    ensures i < count && key == PrintNat(i)
    ensures forall k: nat :: PrintNat(k) == key ==> k == i
  {
    hide PrintNat;
    i :| i < count && key == PrintNat(i);
    forall k: nat | PrintNat(k) == key ensures k == i {
      PrintInjective(k, i);
    }
  }

  /** Exactly the items, each filed under its number. */
  ghost predicate Files<T>(f: map<string, T>, items: seq<T>) {
    && (forall i: nat :: i < |items| ==> PrintNat(i) in f && f[PrintNat(i)] == items[i])
    && OnlyNumbers(f, |items|)
    && |f| == |items|
  }

  ghost predicate OnlyNumbers<T>(f: map<string, T>, count: nat) {
    forall key :: key in f ==> Numbers(key, count)
  }

  lemma NextIsFree<T>(f: map<string, T>, n: nat)
    requires OnlyNumbers(f, n)
    ensures PrintNat(n) !in f
  {
    hide PrintNat, Numbers;
    if PrintNat(n) in f {
      var i := NumberOf(PrintNat(n), n);
    }
  }

  lemma OneMoreNumber<T>(f: map<string, T>, n: nat, t: T)
    requires OnlyNumbers(f, n)
    ensures OnlyNumbers(f[PrintNat(n) := t], n + 1)
  {
    var g := f[PrintNat(n) := t];
    forall key | key in g ensures Numbers(key, n + 1) {
      if key != PrintNat(n) {
        var i := NumberOf(key, n);
      }
    }
  }

  lemma FileOneMore<T>(f: map<string, T>, items: seq<T>, t: T)
    requires Files(f, items)
    ensures Files(f[PrintNat(|items|) := t], items + [t])
  {
    hide PrintNat, OnlyNumbers;
    NextIsFree(f, |items|);
    OneMoreNumber(f, |items|, t);
  }

  lemma {:induction false} NumberedAt<T>(items: seq<T>)
    ensures Files(Numbered(items), items)
  {
    hide PrintNat;
    if items != [] {
      hide OnlyNumbers;
      var init, n := items[..|items| - 1], |items| - 1;
      NumberedAt(init);
      FileOneMore(Numbered(init), init, items[n]);
      assert init + [items[n]] == items;
    }
  }

  lemma ColumnFormsAt(columns: seq<Column>)
    ensures var forms := ColumnForms(columns);
      && (forall i: nat :: i < |columns| ==>
            PrintNat(i) in forms && forms[PrintNat(i)] == Node(ColumnForm(columns[i])))
      && (forall key :: key in forms ==> Numbers(key, |columns|))
      && |forms| == |columns|
  {
    hide PrintNat, Numbered, Numbers, ColumnForm;
    NumberedAt(seq(|columns|, i requires 0 <= i < |columns| => Node(ColumnForm(columns[i]))));
  }

  lemma OrderFormsAt(q: Query)
    requires forall j :: 0 <= j < |q.orders| ==> q.orders[j] < |q.columns|
    ensures var forms := OrderForms(q);
      && (forall j: nat :: j < |q.orders| ==>
            PrintNat(j) in forms && forms[PrintNat(j)] == Node(OrderForm(q, q.orders[j])))
      && (forall key :: key in forms ==> Numbers(key, |q.orders|))
      && |forms| == |q.orders|
  {
    hide PrintNat, Numbered, Numbers, OrderForm;
    NumberedAt(seq(|q.orders|, j requires 0 <= j < |q.orders| => Node(OrderForm(q, q.orders[j]))));
  }

  // ---------- decoding what was encoded ----------

  lemma SearchRoundTrip(s: Search)
    ensures NewSearch(SearchForm(s)) == Ok(s)
  {
  }

  lemma ColumnRoundTrip(c: Column)
    ensures NewColumn(ColumnForm(c), c.order) == Ok(c)
  {
    SearchRoundTrip(c.search);
  }

  /** Visited order entries have given their columns' directions, and no others. */
  ghost predicate Given(q: Query, ordering: map<string, string>, visited: seq<string>)
    requires forall j :: 0 <= j < |q.orders| ==> q.orders[j] < |q.columns|
  {
    && (forall i: nat :: i < |q.columns| && PrintNat(i) in ordering ==> ordering[PrintNat(i)] == q.columns[i].order)
    && (forall j: nat :: j < |q.orders| && PrintNat(j) in visited ==> PrintNat(q.orders[j]) in ordering)
  }

  lemma OrderStep(q: Query, before: map<string, string>, init: seq<string>, j: nat)
    requires forall j :: 0 <= j < |q.orders| ==> q.orders[j] < |q.columns|
    requires Given(q, before, init) && j < |q.orders|
    ensures Given(q, before[PrintNat(q.orders[j]) := q.columns[q.orders[j]].order], init + [PrintNat(j)])
  {
    hide PrintNat;
    var c := q.orders[j];
    var after := before[PrintNat(c) := q.columns[c].order];
    forall i: nat | i < |q.columns| && PrintNat(i) in after ensures after[PrintNat(i)] == q.columns[i].order {
      if PrintNat(i) == PrintNat(c) {
        PrintInjective(i, c);
      }
    }
    forall k: nat | k < |q.orders| && PrintNat(k) in init + [PrintNat(j)] ensures PrintNat(q.orders[k]) in after {
      if PrintNat(k) == PrintNat(j) {
        PrintInjective(k, j);
      }
    }
  }

  lemma OrderEntry(q: Query, init: seq<string>, j: nat)
    requires forall j :: 0 <= j < |q.orders| ==> q.orders[j] < |q.columns|
    requires forall key :: key in init ==> key in OrderForms(q)
    requires j < |q.orders| && PrintNat(j) in OrderForms(q)
    requires OrderForms(q)[PrintNat(j)] == Node(OrderForm(q, q.orders[j]))
    requires Ordering(OrderForms(q), init).Ok?
    ensures Ordering(OrderForms(q), init + [PrintNat(j)])
            == Ok(Ordering(OrderForms(q), init).value[PrintNat(q.orders[j]) := q.columns[q.orders[j]].order])
  {
    hide PrintNat, OrderForms;
    assert (init + [PrintNat(j)])[..|init|] == init;
  }

  lemma {:induction false} OrderingRoundTrip(q: Query, visited: seq<string>)
    requires WellFormed(q)
    requires forall key :: key in visited ==> key in OrderForms(q)
    ensures Ordering(OrderForms(q), visited).Ok?
    ensures Given(q, Ordering(OrderForms(q), visited).value, visited)
  {
    hide PrintNat, OrderForms, OrderForm, Numbers;
    if visited != [] {
      var init, last := visited[..|visited| - 1], visited[|visited| - 1];
      assert visited == init + [last];
      OrderingRoundTrip(q, init);
      OrderFormsAt(q);
      var j := NumberOf(last, |q.orders|);
      hide Ordering, Given;
      OrderEntry(q, init, j);
      OrderStep(q, Ordering(OrderForms(q), init).value, init, j);
    }
  }

  /** The decoded directions are the columns' own. */
  ghost predicate Directed(q: Query, ordering: map<string, string>) {
    forall i: nat :: i < |q.columns| ==> Direction(ordering, PrintNat(i)) == q.columns[i].order
  }

  lemma AllDirected(q: Query, visited: seq<string>)
    requires WellFormed(q) && Enumerates(visited, OrderForms(q))
    ensures Ordering(OrderForms(q), visited).Ok?
    ensures Directed(q, Ordering(OrderForms(q), visited).value)
  {
    hide PrintNat, OrderForms, Ordering, OrderForm, Numbers;
    OrderingRoundTrip(q, visited);
    OrderFormsAt(q);
    var ordering := Ordering(OrderForms(q), visited).value;
    forall i: nat | i < |q.columns| ensures Direction(ordering, PrintNat(i)) == q.columns[i].order {
      if q.columns[i].order != "" {
        var j :| 0 <= j < |q.orders| && q.orders[j] == i;
        assert PrintNat(j) in visited;
      }
    }
  }

  /** The visited columns are in their slots. */
  ghost predicate Filled(q: Query, slots: seq<Option<Column>>, visited: seq<string>) {
    && |slots| == |q.columns|
    && forall i: nat :: i < |q.columns| && PrintNat(i) in visited ==> slots[i] == Some(q.columns[i])
  }

  lemma SlotRoundTrip(q: Query, ordering: map<string, string>, i: nat)
    requires WellFormed(q) && Directed(q, ordering) && i < |q.columns|
    ensures NewColumn(ColumnForm(q.columns[i]), Direction(ordering, PrintNat(i))) == Ok(q.columns[i])
    ensures ParseInt(PrintNat(i)) == i
  {
    ColumnRoundTrip(q.columns[i]);
    ParsePrinted(i);
  }

  lemma SlotEntry(q: Query, ordering: map<string, string>, init: seq<string>, i: nat)
    requires WellFormed(q) && Directed(q, ordering) && i < |q.columns|
    requires forall key :: key in init ==> key in ColumnForms(q.columns)
    requires PrintNat(i) in ColumnForms(q.columns) && |ColumnForms(q.columns)| == |q.columns|
    requires ColumnForms(q.columns)[PrintNat(i)] == Node(ColumnForm(q.columns[i]))
    requires Slots(ColumnForms(q.columns), ordering, init).Ok?
    ensures Slots(ColumnForms(q.columns), ordering, init + [PrintNat(i)])
            == Ok(Slots(ColumnForms(q.columns), ordering, init).value[i := Some(q.columns[i])])
  {
    SlotRoundTrip(q, ordering, i);
    hide PrintNat, ColumnForms, ColumnForm, NewColumn, ParseInt, Direction, WellFormed, Directed;
    assert (init + [PrintNat(i)])[..|init|] == init;
  }

  lemma FilledStep(q: Query, before: seq<Option<Column>>, init: seq<string>, i: nat)
    requires Filled(q, before, init) && i < |q.columns|
    ensures Filled(q, before[i := Some(q.columns[i])], init + [PrintNat(i)])
  {
    hide PrintNat;
    forall k: nat | k < |q.columns| && PrintNat(k) in init + [PrintNat(i)]
      ensures before[i := Some(q.columns[i])][k] == Some(q.columns[k])
    {
      if PrintNat(k) == PrintNat(i) {
        PrintInjective(k, i);
      }
    }
  }

  lemma {:induction false} SlotsRoundTrip(q: Query, ordering: map<string, string>, visited: seq<string>)
    requires WellFormed(q) && Directed(q, ordering)
    requires forall key :: key in visited ==> key in ColumnForms(q.columns)
    ensures Slots(ColumnForms(q.columns), ordering, visited).Ok?
    ensures Filled(q, Slots(ColumnForms(q.columns), ordering, visited).value, visited)
  {
    hide PrintNat, ColumnForms, ColumnForm, WellFormed, Directed, Numbers;
    ColumnFormsAt(q.columns);
    if visited != [] {
      var init, last := visited[..|visited| - 1], visited[|visited| - 1];
      assert visited == init + [last];
      SlotsRoundTrip(q, ordering, init);
      var i := NumberOf(last, |q.columns|);
      hide Slots, Filled;
      SlotEntry(q, ordering, init, i);
      FilledStep(q, Slots(ColumnForms(q.columns), ordering, init).value, init, i);
    }
  }

  /** What decoding a query's form should give. */
  function Decoded(q: Query): Request {
    Request(q.draw, seq(|q.columns|, i requires 0 <= i < |q.columns| => Some(q.columns[i])), q.start, q.length,
            Some(q.search))
  }

  lemma AllSlots(q: Query, ordering: map<string, string>, visited: seq<string>)
    requires WellFormed(q) && Directed(q, ordering) && Enumerates(visited, ColumnForms(q.columns))
    ensures Slots(ColumnForms(q.columns), ordering, visited) == Ok(Decoded(q).columns)
  {
    hide PrintNat, ColumnForms, ColumnForm, WellFormed, Directed, Numbers, Slots;
    SlotsRoundTrip(q, ordering, visited);
    ColumnFormsAt(q.columns);
    var slots := Slots(ColumnForms(q.columns), ordering, visited).value;
    forall i: nat | i < |q.columns| ensures slots[i] == Some(q.columns[i]) {
      assert PrintNat(i) in visited;
    }
    assert slots == Decoded(q).columns;
  }

  lemma EncodeFields(q: Query)
    requires forall j :: 0 <= j < |q.orders| ==> q.orders[j] < |q.columns|
    ensures var f := Encode(q);
      && f.Keys == {"draw", "start", "length", "search"} + (if q.columns == [] then {} else {"columns"})
                   + (if q.orders == [] then {} else {"order"})
      && f["draw"] == Leaf(PrintInt(q.draw)) && f["start"] == Leaf(PrintInt(q.start))
      && f["length"] == Leaf(PrintInt(q.length)) && f["search"] == Node(SearchForm(q.search))
      && ("columns" in f ==> f["columns"] == Node(ColumnForms(q.columns)))
      && ("order" in f ==> f["order"] == Node(OrderForms(q)))
  {
    hide PrintInt, SearchForm, ColumnForms, OrderForms;
  }

  lemma PagingRoundTrip(q: Query)
    requires WellFormed(q)
    ensures var f := Encode(q);
      ToInt(f, "draw") == q.draw && ToInt(f, "start") == q.start && ToInt(f, "length") == q.length
  {
    ParsePrinted(q.draw);
    ParsePrinted(q.start);
    ParsePrinted(q.length);
    EncodeFields(q);
    hide Encode, PrintInt, ParseInt, SearchForm, ColumnForms, OrderForms;
  }

  /** The orders in which the two loops of the decoder may meet the keys. */
  ghost predicate Visits(q: Query, ordersVisited: seq<string>, columnsVisited: seq<string>)
    requires forall j :: 0 <= j < |q.orders| ==> q.orders[j] < |q.columns|
  {
    Enumerates(columnsVisited, ColumnForms(q.columns)) && (q.orders != [] ==> Enumerates(ordersVisited, OrderForms(q)))
  }

  /** Decoding the tree of a request gives its columns with their directions, its paging and its search, in
      whatever order the decoder's loops meet the keys. */
  lemma DecodeEncode(q: Query, ordersVisited: seq<string>, columnsVisited: seq<string>)
    requires WellFormed(q) && q.columns != [] && Visits(q, ordersVisited, columnsVisited)
    ensures Decode(Encode(q), ordersVisited, columnsVisited) == Ok(Decoded(q))
  {
    hide PrintNat, ColumnForms, OrderForms, Slots, Ordering, NewSearch, SearchForm, ToInt;
    var ordering := map[];
    if q.orders != [] {
      AllDirected(q, ordersVisited);
      ordering := Ordering(OrderForms(q), ordersVisited).value;
    }
    AllSlots(q, ordering, columnsVisited);
    SearchRoundTrip(q.search);
    PagingRoundTrip(q);
    EncodeFields(q);
    hide Encode, WellFormed, Directed, Enumerates;
  }

  // ---------- the form values a tree is posted as ----------

  lemma FieldNamesAreSegments()
    ensures forall key :: key in {"draw", "start", "length", "search", "columns", "order"} ==> Segment(key)
  {
  }

  lemma EncodeIsFull(q: Query)
    requires WellFormed(q)
    ensures Full(Encode(q)) && Keyed(Encode(q))
  {
    hide PrintNat, PrintInt, ColumnForms, OrderForms, SearchForm, Keyed, Segment;
    EncodeFields(q);
    SearchFormIsFull(q.search);
    if q.columns != [] {
      ColumnFormsAreFull(q.columns);
    }
    if q.orders != [] {
      OrderFormsAreFull(q);
    }
    hide WellFormed, Encode;
    FieldNamesAreSegments();
    KeyedStep(Encode(q));
  }

  lemma SearchFormIsFull(s: Search)
    ensures SearchForm(s) != map[] && Full(SearchForm(s)) && Keyed(SearchForm(s))
  {
    var f := SearchForm(s);
    assert "value" in f;
    KeyedStep(f);
  }

  lemma ColumnFormIsFull(c: Column)
    ensures ColumnForm(c) != map[] && Full(ColumnForm(c)) && Keyed(ColumnForm(c))
  {
    var f := ColumnForm(c);
    assert "data" in f;
    SearchFormIsFull(c.search);
    hide SearchForm;
    KeyedStep(f);
  }

  lemma NumeralIsSegment(n: nat)
    ensures Segment(PrintNat(n))
  {
    var s := PrintNat(n);
    forall i | 0 <= i < |s| ensures !Bracket(s[i]) {
      assert IsDigit(s[i]);
    }
  }

  lemma ColumnFormsAreFull(columns: seq<Column>)
    requires columns != []
    ensures ColumnForms(columns) != map[] && Full(ColumnForms(columns)) && Keyed(ColumnForms(columns))
  {
    hide PrintNat, ColumnForms, ColumnForm, Numbers;
    ColumnFormsAt(columns);
    var f := ColumnForms(columns);
    assert PrintNat(0) in f;
    forall key | key in f ensures Segment(key) && FullTree(f[key]) && f[key].Node? && Keyed(f[key].children) {
      var i := NumberOf(key, |columns|);
      NumeralIsSegment(i);
      ColumnFormIsFull(columns[i]);
    }
    KeyedStep(f);
  }

  lemma OrderFormsAreFull(q: Query)
    requires q.orders != [] && forall j :: 0 <= j < |q.orders| ==> q.orders[j] < |q.columns|
    ensures OrderForms(q) != map[] && Full(OrderForms(q)) && Keyed(OrderForms(q))
  {
    hide PrintNat, OrderForms, Numbers;
    OrderFormsAt(q);
    var f := OrderForms(q);
    assert PrintNat(0) in f;
    forall key | key in f ensures Segment(key) && FullTree(f[key]) && f[key].Node? && Keyed(f[key].children) {
      var j := NumberOf(key, |q.orders|);
      NumeralIsSegment(j);
      OrderFormIsFull(q, q.orders[j]);
    }
    KeyedStep(f);
  }

  lemma OrderFormIsFull(q: Query, column: nat)
    requires column < |q.columns|
    ensures OrderForm(q, column) != map[] && Full(OrderForm(q, column)) && Keyed(OrderForm(q, column))
  {
    hide PrintNat;
    var f := OrderForm(q, column);
    assert "dir" in f;
    KeyedStep(f);
  }

  /** Posting a request as bracketed form values and decoding them gives the request back exactly if it has a column:
      whatever `NewSearchRequest` may answer, in whatever orders its loops run, is the request that was posted, or
      the empty request if none of its keys is under `columns`. */
  lemma RequestRoundTrip(q: Query, values: map<string, seq<string>>, formOrder: seq<string>,
                         ordersVisited: seq<string>, columnsVisited: seq<string>, res: Result<Request>)
    requires WellFormed(q) && IsFormOf(values, Encode(q))
    requires Outcome(values, formOrder, ordersVisited, columnsVisited, res)
    ensures res == Ok(Decoded(q)) <==> q.columns != []
    ensures q.columns == [] ==> res == Ok(EMPTY_REQUEST)
  {
    hide Encode, Full, Keyed, IsFormOf, ColumnForms, OrderForms, Enumerates, PrintInt, SearchForm, Decode, Ordering,
      Slots;
    EncodeIsFull(q);
    PostedFormBuilds(values, Encode(q), formOrder);
    EncodeFields(q);
    hide Build, EntriesOf;
    if q.columns != [] {
      VisitedInFull(q, ordersVisited, columnsVisited, res);
    } else {
      NoColumnsNoRequest(q, ordersVisited, columnsVisited, res);
    }
  }

  lemma FirstOrderNamesColumn(q: Query)
    requires WellFormed(q)
    ensures q.orders == [] || q.orders[0] < |q.columns|
  {
  }

  lemma NoColumnsNoRequest(q: Query, ordersVisited: seq<string>, columnsVisited: seq<string>, res: Result<Request>)
    requires WellFormed(q) && q.columns == [] && Answers(Encode(q), ordersVisited, columnsVisited, res)
    ensures res == Ok(EMPTY_REQUEST) && res != Ok(Decoded(q))
  {
    FirstOrderNamesColumn(q);
    EncodeFields(q);
    hide Encode, ColumnForms, OrderForms, Enumerates, PrintInt, SearchForm;
  }

  /** A decoder that stops early never answers. */
  lemma VisitedInFull(q: Query, ordersVisited: seq<string>, columnsVisited: seq<string>, res: Result<Request>)
    requires WellFormed(q) && q.columns != [] && Answers(Encode(q), ordersVisited, columnsVisited, res)
    ensures res == Ok(Decoded(q))
  {
    EncodeFields(q);
    hide Encode, ColumnForms, OrderForms, Enumerates, PrintInt, SearchForm, Decode, Ordering, Slots, Decoded;
    if q.orders != [] {
      AllDirected(q, ordersVisited);
    }
    DecodeEncode(q, ordersVisited, columnsVisited);
  }
}
