/** Filtering the rows of a table by the request's search, and answering the request. */
module Filter {
  import opened Wrappers
  import opened Columns
  import opened Lines
  import opened MapOrder
  import opened RowWindow

  /** The parts of the search that the standard library supplies. */
  datatype Engine = Engine(compiles: string -> bool, matches: (string, string) -> bool, lower: string -> string)

  // ---------- search definitions ----------

  predicate Applicable(e: Engine, s: Search) {
    if s.regexp then e.compiles(s.value) else s.value != ""
  }

  predicate Matches(e: Engine, s: Search, value: string) {
    if s.regexp && e.compiles(s.value) then e.matches(s.value, value)
    else Contains(e.lower(value), e.lower(s.value))
  }

  /** A search definition with its cached expression. */
  class SearchDefinition {
    const search: Search
    var compiled: bool
    var invalid: bool

    /** The caches say nothing that compiling would not. */
    ghost predicate Valid(e: Engine)
      reads this
    {
      && (compiled ==> search.regexp && e.compiles(search.value))
      && (invalid ==> search.regexp && !e.compiles(search.value))
    }

    constructor (search: Search)
      ensures this.search == search && forall e :: Valid(e)
    {
      this.search, compiled, invalid := search, false, false;
    }

    method GetRegExp(e: Engine) returns (ok: bool)
      requires Valid(e)
      modifies this
      ensures Valid(e) && ok == (search.regexp && e.compiles(search.value))
    {
      if !search.regexp {
        return false;
      }
      if !compiled {
        if e.compiles(search.value) {
          compiled := true;
        } else {
          invalid := true;
          return false;
        }
      }
      ok := true;
    }

    method IsApplicable(e: Engine) returns (applicable: bool)
      requires Valid(e)
      modifies this
      ensures Valid(e) && applicable == Applicable(e, search)
      ensures applicable <==> if search.regexp then e.compiles(search.value) else search.value != ""
    {
      if search.regexp {
        if !invalid {
          applicable := GetRegExp(e);
          return;
        }
        return false;
      }
      applicable := search.value != "";
    }

    method IsMatch(e: Engine, value: string) returns (matching: bool)
      requires Valid(e)
      modifies this
      ensures Valid(e) && matching == Matches(e, search, value)
      ensures matching <==> if search.regexp && e.compiles(search.value) then e.matches(search.value, value)
                            else exists i :: 0 <= i <= |e.lower(value)| && e.lower(search.value) <= e.lower(value)[i..]
    {
      ContainsIsSubstring(e.lower(value), e.lower(search.value));
      var compiles := GetRegExp(e);
      if compiles {
        return e.matches(search.value, value);
      }
      matching := Contains(e.lower(value), e.lower(search.value));
    }
  }

  // ---------- one row ----------

  predicate FirstNamed(cols: seq<Column>, name: string, i: int) {
    0 <= i < |cols| && cols[i].name == name && forall k :: 0 <= k < i ==> cols[k].name != name
  }

  /** The cell matches an active global filter. */
  predicate Hits(e: Engine, filter: Search, row: Row, name: string) {
    Applicable(e, filter) && Matches(e, filter, Cell(row, name))
  }

  /** The cell fails the active filter of its column. */
  ghost predicate Misses(e: Engine, cols: seq<Column>, row: Row, name: string) {
    exists i :: FirstNamed(cols, name, i) && cols[i].searchable && Applicable(e, cols[i].search)
                && !Matches(e, cols[i].search, Cell(row, name))
  }

  /** The verdict on the cells in the order visited, from position `i` on: the first that hits or misses
      decides; `found` is the verdict if none does. */
  ghost predicate Passes(e: Engine, cols: seq<Column>, filter: Search, row: Row, visited: seq<string>, i: nat,
                         found: bool)
    requires i <= |visited|
    decreases |visited| - i
  {
    if i == |visited| then found
    else if Hits(e, filter, row, visited[i]) then true
    else if Misses(e, cols, row, visited[i]) then false
    else Passes(e, cols, filter, row, visited, i + 1, found && !Applicable(e, filter))
  }

  ghost predicate Accepts(e: Engine, cols: seq<Column>, filter: Search, row: Option<Row>, visited: seq<string>) {
    row.Some? && row.value.data != map[] && Passes(e, cols, filter, row.value, visited, 0, true)
  }

  ghost predicate MayVisit(row: Option<Row>, visited: seq<string>) {
    row.Some? ==> Enumerates(visited, row.value.data)
  }

  /** The columns' own search definitions. */
  ghost predicate SearchesOf(cols: seq<Column>, searches: seq<SearchDefinition>) {
    |searches| == |cols| && forall i :: 0 <= i < |cols| ==> searches[i].search == cols[i].search
  }

  ghost predicate AllValid(e: Engine, all: set<SearchDefinition>)
    reads all
  {
    forall s :: s in all ==> s.Valid(e)
  }

  /** Whether a definition is applicable and, if so, whether the value matches it. */
  method Check(e: Engine, s: SearchDefinition, value: string, ghost all: set<SearchDefinition>)
    returns (applicable: bool, matching: bool)
    requires s in all && AllValid(e, all)
    modifies all
    ensures AllValid(e, all)
    ensures applicable == Applicable(e, s.search) && matching == (applicable && Matches(e, s.search, value))
  {
    hide Applicable, Matches;
    matching := false;
    applicable := s.IsApplicable(e);
    if applicable {
      matching := s.IsMatch(e, value);
    }
  }

  /** One turn of the loop over a row's cells: the verdict, if this cell settles it. */
  method JudgeCell(e: Engine, row: Row, name: string, filter: SearchDefinition, rowSet: SortableRowSet,
                   searches: seq<SearchDefinition>, ghost all: set<SearchDefinition>, foundGlobally: bool)
    returns (settled: Option<bool>, found: bool)
    requires SearchesOf(rowSet.cols, searches) && AllValid(e, all)
    requires filter in all && forall s :: s in searches ==> s in all
    modifies all
    ensures AllValid(e, all)
    ensures settled == if Hits(e, filter.search, row, name) then Some(true)
                       else if Misses(e, rowSet.cols, row, name) then Some(false) else None
    ensures found == (foundGlobally && !Applicable(e, filter.search))
  {
    hide Applicable, Matches, AllValid, SearchesOf, Misses;
    found := foundGlobally;
    var applicable, matching := Check(e, filter, Cell(row, name), all);
    if applicable {
      found := false;
      if matching {
        return Some(true), found;
      }
    }
    var col := rowSet.ColumnByName(name);
    if col >= 0 && rowSet.cols[col].searchable {
      SearchAt(rowSet.cols, searches, col);
      applicable, matching := Check(e, searches[col], Cell(row, name), all);
      MissesAt(e, rowSet.cols, row, name, col);
      if applicable && !matching {
        return Some(false), found;
      }
    } else {
      MissesNot(e, rowSet.cols, row, name);
    }
    settled := None;
  }

  /** `all` holds every definition whose cache may be filled on the way. */
  method FilterRow(e: Engine, row: Option<Row>, filter: SearchDefinition, rowSet: SortableRowSet,
                   searches: seq<SearchDefinition>, ghost all: set<SearchDefinition>)
    returns (accepted: bool, visited: seq<string>)
    requires SearchesOf(rowSet.cols, searches) && AllValid(e, all)
    requires filter in all && forall s :: s in searches ==> s in all
    modifies all
    ensures AllValid(e, all)
    ensures MayVisit(row, visited) && accepted == Accepts(e, rowSet.cols, filter.search, row, visited)
  {
    if row.None? || |row.value.data| == 0 {
      return false, [];
    }
    visited := Range(row.value.data);
    accepted := true;
    hide Hits, Misses, Enumerates, SearchesOf, Applicable, AllValid;
    for i := 0 to |visited|
      invariant AllValid(e, all)
      invariant Passes(e, rowSet.cols, filter.search, row.value, visited, i, accepted)
                == Passes(e, rowSet.cols, filter.search, row.value, visited, 0, true)
    {
      var settled;
      settled, accepted := JudgeCell(e, row.value, visited[i], filter, rowSet, searches, all, accepted);
      if settled.Some? {
        return settled.value, visited;
      }
    }
  }

  lemma SearchAt(cols: seq<Column>, searches: seq<SearchDefinition>, col: nat)
    requires SearchesOf(cols, searches) && col < |cols|
    ensures col < |searches| && searches[col].search == cols[col].search
  {
  }

  lemma MissesAt(e: Engine, cols: seq<Column>, row: Row, name: string, col: nat)
    requires FirstNamed(cols, name, col) && cols[col].searchable
    ensures Misses(e, cols, row, name)
            <==> Applicable(e, cols[col].search) && !Matches(e, cols[col].search, Cell(row, name))
  {
    hide Applicable, Matches;
  }

  lemma MissesNot(e: Engine, cols: seq<Column>, row: Row, name: string)
    requires forall i :: FirstNamed(cols, name, i) ==> !cols[i].searchable
    ensures !Misses(e, cols, row, name)
  {
  }

  // ---------- when the verdict does not depend on the order ----------

  ghost function HitNames(e: Engine, filter: Search, row: Row): set<string> {
    set name | name in row.data && Hits(e, filter, row, name)
  }

  ghost function MissNames(e: Engine, cols: seq<Column>, row: Row): set<string> {
    set name | name in row.data && Misses(e, cols, row, name)
  }

  /** The cell that settles the verdict: it hits, or it misses without hitting. */
  ghost predicate Settles(e: Engine, cols: seq<Column>, filter: Search, row: Row, name: string) {
    Hits(e, filter, row, name) || Misses(e, cols, row, name)
  }

  lemma {:induction false} FirstSettlingCellDecides(e: Engine, cols: seq<Column>, filter: Search, row: Row,
                                                    visited: seq<string>, from: nat, found: bool, i: nat)
    requires from <= i < |visited| && Settles(e, cols, filter, row, visited[i])
    requires forall k :: from <= k < i ==> !Settles(e, cols, filter, row, visited[k])
    ensures Passes(e, cols, filter, row, visited, from, found) == Hits(e, filter, row, visited[i])
    decreases i - from
  {
    hide Hits, Misses, Applicable;
    if from < i {
      assert !Settles(e, cols, filter, row, visited[from]);
      FirstSettlingCellDecides(e, cols, filter, row, visited, from + 1, found && !Applicable(e, filter), i);
    }
  }

  lemma {:induction false} NoCellSettles(e: Engine, cols: seq<Column>, filter: Search, row: Row, visited: seq<string>,
                                         from: nat, found: bool)
    requires from <= |visited|
    requires forall k :: from <= k < |visited| ==> !Settles(e, cols, filter, row, visited[k])
    ensures Passes(e, cols, filter, row, visited, from, found)
            == (found && (from == |visited| || !Applicable(e, filter)))
    decreases |visited| - from
  {
    hide Hits, Misses, Applicable;
    if from < |visited| {
      assert !Settles(e, cols, filter, row, visited[from]);
      NoCellSettles(e, cols, filter, row, visited, from + 1, found && !Applicable(e, filter));
    }
  }

  lemma FirstSettling(e: Engine, cols: seq<Column>, filter: Search, row: Row, visited: seq<string>) returns (i: nat)
    ensures i <= |visited| && (i < |visited| ==> Settles(e, cols, filter, row, visited[i]))
    ensures forall k :: 0 <= k < i ==> !Settles(e, cols, filter, row, visited[k])
  {
    hide Settles;
    i := 0;
    while i < |visited| && !Settles(e, cols, filter, row, visited[i])
      invariant i <= |visited| && forall k :: 0 <= k < i ==> !Settles(e, cols, filter, row, visited[k])
    {
      i := i + 1;
    }
  }

  /** The order-free verdict: with a global filter, some cell hits it; without, no cell misses its column's. */
  ghost predicate OrderFreeVerdict(e: Engine, cols: seq<Column>, filter: Search, row: Row) {
    if Applicable(e, filter) then HitNames(e, filter, row) != {} else MissNames(e, cols, row) == {}
  }

  /** No cell hits, or every cell that misses also hits. */
  ghost predicate Agreeing(e: Engine, cols: seq<Column>, filter: Search, row: Row) {
    HitNames(e, filter, row) == {} || MissNames(e, cols, row) <= HitNames(e, filter, row)
  }

  lemma VerdictWhenAgreeing(e: Engine, cols: seq<Column>, filter: Search, row: Row, visited: seq<string>)
    requires Enumerates(visited, row.data) && Agreeing(e, cols, filter, row) && row.data != map[]
    ensures Passes(e, cols, filter, row, visited, 0, true) == OrderFreeVerdict(e, cols, filter, row)
  {
    var i := FirstSettling(e, cols, filter, row, visited);
    if i < |visited| {
      FirstSettlingCellDecides(e, cols, filter, row, visited, 0, true, i);
      hide Passes, Misses, Enumerates;
      DecidedAlike(e, cols, filter, row, visited[i]);
    } else {
      NoCellSettles(e, cols, filter, row, visited, 0, true);
      hide Passes, Misses;
      NoneNamed(e, cols, filter, row, visited);
    }
  }

  lemma DecidedAlike(e: Engine, cols: seq<Column>, filter: Search, row: Row, name: string)
    requires name in row.data && Settles(e, cols, filter, row, name) && Agreeing(e, cols, filter, row)
    ensures Hits(e, filter, row, name) == OrderFreeVerdict(e, cols, filter, row)
  {
    hide Misses, Matches;
    if Hits(e, filter, row, name) {
      assert name in HitNames(e, filter, row);
    } else {
      assert name in MissNames(e, cols, row);
    }
  }

  lemma NoneNamed(e: Engine, cols: seq<Column>, filter: Search, row: Row, visited: seq<string>)
    requires Enumerates(visited, row.data)
    requires forall k :: 0 <= k < |visited| ==> !Settles(e, cols, filter, row, visited[k])
    ensures HitNames(e, filter, row) == {} && MissNames(e, cols, row) == {}
  {
    hide Misses, Hits;
    forall name | name in row.data ensures !Settles(e, cols, filter, row, name) {
      assert name in visited;
    }
  }

  /** With a global search alone, a row is accepted exactly if some cell matches it. */
  lemma GlobalSearchAccepts(e: Engine, cols: seq<Column>, filter: Search, row: Row, visited: seq<string>)
    requires Enumerates(visited, row.data) && row.data != map[] && Applicable(e, filter)
    requires forall c :: 0 <= c < |cols| && cols[c].searchable ==> !Applicable(e, cols[c].search)
    ensures Accepts(e, cols, filter, Some(row), visited)
            <==> exists name :: name in row.data && Matches(e, filter, row.data[name])
  {
    hide Passes, Enumerates, Matches, Applicable;
    assert MissNames(e, cols, row) == {};
    VerdictWhenAgreeing(e, cols, filter, row, visited);
    hide MissNames, Misses;
    if name :| name in row.data && Matches(e, filter, row.data[name]) {
      assert name in HitNames(e, filter, row);
    }
    if name :| name in HitNames(e, filter, row) {
      assert Cell(row, name) == row.data[name];
    }
  }

  /** Without a global search, a row is accepted exactly if every cell under a searchable column matches that column's
      search, if it has one; the first column of a cell's name is its column. */
  lemma ColumnSearchesAccept(e: Engine, cols: seq<Column>, filter: Search, row: Row, visited: seq<string>)
    requires Enumerates(visited, row.data) && row.data != map[] && !Applicable(e, filter)
    ensures Accepts(e, cols, filter, Some(row), visited)
            <==> forall name, c :: name in row.data && 0 <= c < |cols| && cols[c].name == name
                                   && (forall k :: 0 <= k < c ==> cols[k].name != name)
                                   && cols[c].searchable && Applicable(e, cols[c].search) ==>
                   Matches(e, cols[c].search, row.data[name])
  {
    hide Passes, Enumerates, Matches, Applicable;
    assert HitNames(e, filter, row) == {};
    VerdictWhenAgreeing(e, cols, filter, row, visited);
    hide HitNames, Hits;
    if name :| name in MissNames(e, cols, row) {
      assert Misses(e, cols, row, name) && Cell(row, name) == row.data[name];
    }
    forall name, c | name in row.data && FirstNamed(cols, name, c) && cols[c].searchable
                     && Applicable(e, cols[c].search) && !Matches(e, cols[c].search, row.data[name])
      ensures name in MissNames(e, cols, row)
    {
      assert Misses(e, cols, row, name);
    }
  }

  /** Every order of visiting the cells gives one verdict. */
  ghost predicate OrderFree(e: Engine, cols: seq<Column>, filter: Search, row: Row) {
    forall a, b :: Enumerates(a, row.data) && Enumerates(b, row.data) ==>
      Passes(e, cols, filter, row, a, 0, true) == Passes(e, cols, filter, row, b, 0, true)
  }

  /** The verdict on a row is the same for every order of its cells exactly when no cell hits the global filter
      or every cell that misses its column's filter hits the global one. */
  lemma OrderFreeIffAgreeing(e: Engine, cols: seq<Column>, filter: Search, row: Row)
    requires row.data != map[]
    ensures OrderFree(e, cols, filter, row) <==> Agreeing(e, cols, filter, row)
  {
    hide Passes, Misses, Hits, Enumerates, HitNames, MissNames;
    if Agreeing(e, cols, filter, row) {
      hide Agreeing;
      forall a, b | Enumerates(a, row.data) && Enumerates(b, row.data)
        ensures Passes(e, cols, filter, row, a, 0, true) == Passes(e, cols, filter, row, b, 0, true)
      {
        VerdictWhenAgreeing(e, cols, filter, row, a);
        VerdictWhenAgreeing(e, cols, filter, row, b);
      }
    } else {
      var a, b := DisagreeingOrders(e, cols, filter, row);
    }
  }

  lemma DisagreeingOrders(e: Engine, cols: seq<Column>, filter: Search, row: Row)
    returns (a: seq<string>, b: seq<string>)
    requires !Agreeing(e, cols, filter, row)
    ensures Enumerates(a, row.data) && Enumerates(b, row.data)
    ensures Passes(e, cols, filter, row, a, 0, true) && !Passes(e, cols, filter, row, b, 0, true)
  {
    hide Misses, Hits;
    var hit :| hit in HitNames(e, filter, row);
    var miss :| miss in MissNames(e, cols, row) && miss !in HitNames(e, filter, row);
    a := OrderStartingWith(row.data, hit);
    b := OrderStartingWith(row.data, miss);
    FirstSettlingCellDecides(e, cols, filter, row, a, 0, true, 0);
    FirstSettlingCellDecides(e, cols, filter, row, b, 0, true, 0);
  }

  lemma OneLetter(a: char, b: char)
    ensures Contains([a], [b]) <==> a == b
  {
    assert [a][1..] == [];
    assert [b] <= [a] <==> [b][0] == [a][0];
  }

  /** A row with a cell that hits the global filter and another that misses its column's: one order of its cells
      accepts it, the other does not. */
  lemma TwoVerdicts(e: Engine, order: string)
    requires e.lower("x") == "x" && e.lower("y") == "y" && e.lower("z") == "z"
    ensures var row := Row(map["a" := "x", "b" := "y"], ""); var filter := Search("x", false);
      var cols := [Column("b", true, false, order, Search("z", false))];
      && Passes(e, cols, filter, row, ["a", "b"], 0, true) && !Passes(e, cols, filter, row, ["b", "a"], 0, true)
      && !OrderFree(e, cols, filter, row)
  {
    var row := Row(map["a" := "x", "b" := "y"], "");
    var filter := Search("x", false);
    var cols := [Column("b", true, false, order, Search("z", false))];
    OneLetter('x', 'x');
    OneLetter('y', 'x');
    OneLetter('y', 'z');
    assert Hits(e, filter, row, "a") && !Hits(e, filter, row, "b");
    assert FirstNamed(cols, "b", 0);
    assert Misses(e, cols, row, "b");
    assert Enumerates(["a", "b"], row.data) && Enumerates(["b", "a"], row.data);
  }

  // ---------- the store ----------

  const UINT64 := 0x1_0000_0000_0000_0000

  /** Go's conversion of an integer to `uint`. */
  function ToUint(n: int): nat {
    n % UINT64
  }

  /** The rows of a feed that are accepted, given the order in which each row's cells are visited. */
  ghost function Accepted(e: Engine, cols: seq<Column>, filter: Search, feed: seq<Option<Row>>,
                          orders: seq<seq<string>>): seq<Row>
    requires |orders| == |feed|
  {
    if feed == [] then []
    else
      var n := |feed| - 1;
      Accepted(e, cols, filter, feed[..n], orders[..n])
      + if Accepts(e, cols, filter, feed[n], orders[n]) then [feed[n].value] else []
  }

  datatype TableResult = TableResult(draw: int, total: nat, filtered: nat, data: seq<Row>)

  /** A feed of rows whose verdicts do not depend on the order is answered alike in every order. */
  lemma {:induction false} AcceptedOrderFree(e: Engine, cols: seq<Column>, filter: Search, feed: seq<Option<Row>>,
                                             a: seq<seq<string>>, b: seq<seq<string>>)
    requires |a| == |b| == |feed|
    requires forall i :: 0 <= i < |feed| ==> MayVisit(feed[i], a[i]) && MayVisit(feed[i], b[i])
    requires forall i :: 0 <= i < |feed| && feed[i].Some? ==> Agreeing(e, cols, filter, feed[i].value)
    ensures Accepted(e, cols, filter, feed, a) == Accepted(e, cols, filter, feed, b)
  {
    hide Passes, Agreeing, Enumerates;
    if feed != [] {
      var n := |feed| - 1;
      AcceptedOrderFree(e, cols, filter, feed[..n], a[..n], b[..n]);
      if feed[n].Some? && feed[n].value.data != map[] {
        VerdictWhenAgreeing(e, cols, filter, feed[n].value, a[n]);
        VerdictWhenAgreeing(e, cols, filter, feed[n].value, b[n]);
      }
    }
  }

  lemma AcceptedOneMore(e: Engine, cols: seq<Column>, filter: Search, feed: seq<Option<Row>>, orders: seq<seq<string>>,
                        i: nat, visited: seq<string>)
    requires i < |feed| && |orders| == i
    ensures Accepted(e, cols, filter, feed[..i + 1], orders + [visited])
            == Accepted(e, cols, filter, feed[..i], orders)
               + if Accepts(e, cols, filter, feed[i], visited) then [feed[i].value] else []
  {
    hide Accepts;
    assert feed[..i + 1][..i] == feed[..i] && (orders + [visited])[..i] == orders;
    assert feed[..i + 1][i] == feed[i] && (orders + [visited])[i] == visited;
  }

  lemma KeepOneMore(cols: seq<Column>, limit: nat, rows: seq<Row>, row: Row)
    ensures Keep(cols, limit, rows + [row]) == Kept(cols, limit, Keep(cols, limit, rows), row)
  {
    assert (rows + [row])[..|rows|] == rows;
  }

  class DefaultStore {
    var rows: SortableRowSet?
    var search: SearchDefinition?
    var searches: seq<SearchDefinition>
    var filtered: nat
    var total: nat

    constructor ()
      ensures rows == null && search == null && filtered == 0 && total == 0
    {
      rows, search, searches, filtered, total := null, null, [], 0, 0;
    }

    ghost function Caches(): (all: set<SearchDefinition>)
      reads this
      ensures (search != null ==> search in all) && forall s :: s in searches ==> s in all
    {
      (if search == null then {} else {search}) + set s | s in searches
    }

    ghost predicate Valid(e: Engine)
      reads this, Caches()
    {
      rows != null && search != null && SearchesOf(rows.cols, searches) && AllValid(e, Caches())
    }

    /** Fails without a row set; otherwise the row counts, and is added and counted as filtered if accepted. */
    method AddRow(e: Engine, row: Option<Row>) returns (ok: bool, visited: seq<string>)
      requires rows != null ==> Valid(e)
      modifies this`filtered, this`total, rows, Caches()
      ensures ok <==> rows != null
      ensures !ok ==> filtered == old(filtered) && total == old(total)
      ensures ok ==> Valid(e) && MayVisit(row, visited) && total == old(total) + 1
      ensures ok && Accepts(e, rows.cols, search.search, row, visited) ==>
                filtered == old(filtered) + 1
                && rows.rows == Kept(rows.cols, rows.limit, old(rows.rows), row.value)
      ensures ok && !Accepts(e, rows.cols, search.search, row, visited) ==>
                filtered == old(filtered) && rows.rows == old(rows.rows)
    {
      visited := [];
      if rows == null {
        return false, [];
      }
      hide SearchesOf, AllValid, Enumerates, Passes, Insert, Less, Drops;
      var accepted;
      accepted, visited := FilterRow(e, row, search, rows, searches, Caches());
      if accepted {
        rows.Add(row.value);
        filtered := filtered + 1;
      }
      total := total + 1;
      ok := true;
    }

    /** What the store has counted and kept after a feed. */
    ghost predicate Fed(e: Engine, feed: seq<Option<Row>>, orders: seq<seq<string>>)
      reads this, rows, search
      requires rows != null && search != null && |orders| == |feed|
    {
      var accepted := Accepted(e, rows.cols, search.search, feed, orders);
      total == |feed| && filtered == |accepted| && rows.rows == Keep(rows.cols, rows.limit, accepted)
    }

    lemma FedOneMore(e: Engine, feed: seq<Option<Row>>, orders: seq<seq<string>>, i: nat, visited: seq<string>,
                     before: seq<Row>)
      requires rows != null && search != null && i < |feed| && |orders| == i
      requires before == Accepted(e, rows.cols, search.search, feed[..i], orders)
      requires total == i + 1
      requires Accepts(e, rows.cols, search.search, feed[i], visited) ==>
                 filtered == |before| + 1
                 && rows.rows == Kept(rows.cols, rows.limit, Keep(rows.cols, rows.limit, before), feed[i].value)
      requires !Accepts(e, rows.cols, search.search, feed[i], visited) ==>
                 filtered == |before| && rows.rows == Keep(rows.cols, rows.limit, before)
      ensures Fed(e, feed[..i + 1], orders + [visited])
    {
      AcceptedOneMore(e, rows.cols, search.search, feed, orders, i, visited);
      hide Keep, Kept, Accepted;
      if Accepts(e, rows.cols, search.search, feed[i], visited) {
        KeepOneMore(rows.cols, rows.limit, before, feed[i].value);
      } else {
        assert before + [] == before;
      }
    }

    /** A data source: it feeds its rows to `AddRow`. */
    method DataSource(e: Engine, feed: seq<Option<Row>>) returns (orders: seq<seq<string>>)
      requires Valid(e) && rows.rows == [] && filtered == 0 && total == 0
      modifies this`filtered, this`total, rows, Caches()
      ensures Valid(e)
      ensures |orders| == |feed| && forall i :: 0 <= i < |feed| ==> MayVisit(feed[i], orders[i])
      ensures Fed(e, feed, orders)
    {
      orders := [];
      hide SearchesOf, AllValid, MayVisit, Accepts, Kept;
      for i := 0 to |feed|
        invariant Valid(e)
        invariant |orders| == i && forall k :: 0 <= k < i ==> MayVisit(feed[k], orders[k])
        invariant Fed(e, feed[..i], orders)
      {
        hide Accepted, Keep;
        ghost var before := Accepted(e, rows.cols, search.search, feed[..i], orders);
        var ok, visited := AddRow(e, feed[i]);
        FedOneMore(e, feed, orders, i, visited, before);
        orders := orders + [visited];
      }
      assert feed[..|feed|] == feed;
    }

    /** The answer to a request over the rows that the data source feeds to `AddRow`: everything fed is counted,
        everything accepted is counted as filtered, and the page is cut from what the row set kept. */
    method QueryData(e: Engine, draw: int, cols: seq<Column>, start: int, length: int, search: SearchDefinition,
                     searches: seq<SearchDefinition>, feed: seq<Option<Row>>)
      returns (res: TableResult, orders: seq<seq<string>>)
      requires SearchesOf(cols, searches) && AllValid(e, {search} + set s | s in searches)
      modifies this, {search} + set s | s in searches
      ensures |orders| == |feed| && forall i :: 0 <= i < |feed| ==> MayVisit(feed[i], orders[i])
      ensures var accepted := Accepted(e, cols, search.search, feed, orders);
        res == TableResult(draw, |feed|, |accepted|,
                           Page(Keep(cols, ToUint(start + length), accepted), ToUint(start), ToUint(start + length)))
    {
      rows := new SortableRowSet(ToUint(start), ToUint(start + length), cols);
      this.search, this.searches := search, searches;
      filtered, total := 0, 0;
      hide SearchesOf, AllValid, MayVisit, Accepted, Keep, ToUint;
      assert Caches() == {search} + set s | s in searches;
      orders := DataSource(e, feed);
      var page := rows.GetRows();
      res := TableResult(draw, total, filtered, page);
    }
  }
}
