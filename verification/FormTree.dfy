/** Building a nested tree from bracketed form keys. */
module FormTree {
  import opened Wrappers
  import opened KeyParser
  import opened MapOrder

  type Forest = map<string, Tree>

  datatype Tree = Leaf(value: string) | Node(children: Forest)

  datatype Entry = Entry(path: seq<string>, value: string)

  /** Walk down `path`, creating nodes where there are none, and put a leaf at its end. Meeting a leaf on the
      way is a failed type assertion. */
  function Put(f: Forest, path: seq<string>, value: string): Result<Forest>
    requires path != []
    decreases |path|
  {
    if |path| == 1 then Ok(f[path[0] := Leaf(value)])
    else
      var child := if path[0] in f then f[path[0]] else Node(map[]);
      match child
      case Leaf(_) => Panic
      case Node(children) =>
        match Put(children, path[1..], value)
        case Panic => Panic
        case Ok(grown) => Ok(f[path[0] := Node(grown)])
  }

  /** An empty path goes nowhere. */
  function PutEntry(f: Result<Forest>, e: Entry): Result<Forest> {
    if f.Panic? || e.path == [] then f else Put(f.value, e.path, e.value)
  }

  function Build(entries: seq<Entry>): Result<Forest> {
    if entries == [] then Ok(map[])
    else PutEntry(Build(entries[..|entries| - 1]), entries[|entries| - 1])
  }

  lemma BuildOneMore(entries: seq<Entry>, e: Entry)
    ensures Build(entries + [e]) == PutEntry(Build(entries), e)
  {
    assert (entries + [e])[..|entries|] == entries;
  }

  /** The entries of a form, visited in the given order of raw keys; keys without values are skipped. */
  function EntriesOf(values: map<string, seq<string>>, order: seq<string>): seq<Entry>
    requires forall key :: key in order ==> key in values
  {
    if order == [] then []
    else
      var key := order[|order| - 1];
      EntriesOf(values, order[..|order| - 1])
      + if values[key] == [] then [] else [Entry(Parse(key), values[key][0])]
  }

  lemma VisitKey(values: map<string, seq<string>>, order: seq<string>, key: string)
    requires key in values && forall k :: k in order ==> k in values
    ensures var before := Build(EntriesOf(values, order));
      Build(EntriesOf(values, order + [key]))
      == if values[key] == [] then before else PutEntry(before, Entry(Parse(key), values[key][0]))
  {
    assert (order + [key])[..|order|] == order;
    var entries := EntriesOf(values, order);
    if values[key] == [] {
      assert entries + [] == entries;
    } else {
      BuildOneMore(entries, Entry(Parse(key), values[key][0]));
    }
  }

  /** `order` is the iteration order that was taken. */
  method TreePostFormValues(values: map<string, seq<string>>) returns (res: Result<Forest>, order: seq<string>)
    ensures Enumerates(order, values)
    ensures res == Build(EntriesOf(values, order))
  {
    order := Range(values);
    res := Ok(map[]);
    assert forall key :: key in order <==> key in values;
    hide Enumerates, Parse, Put;
    for i := 0 to |order|
      invariant res == Build(EntriesOf(values, order[..i]))
    {
      var rawKey := order[i];
      var vs := values[rawKey];
      VisitKey(values, order[..i], rawKey);
      assert order[..i + 1] == order[..i] + [rawKey];
      if |vs| > 0 {
        var keyPath := ParseKey(rawKey);
        if res.Ok? && keyPath != [] {
          res := Put(res.value, keyPath, vs[0]);
        }
      }
    }
    assert order[..|order|] == order;
  }

  // ---------- what a tree says ----------

  /** The tree has `value` at the end of `path`: the flattened tree, as a relation. */
  predicate Holds(f: Forest, path: seq<string>, value: string)
    decreases |path|
  {
    path != [] && path[0] in f
    && match f[path[0]]
       case Leaf(v) => |path| == 1 && v == value
       case Node(children) => Holds(children, path[1..], value)
  }

  /** No inner node is empty. */
  ghost predicate Full(f: Forest) {
    forall key :: key in f ==> FullTree(f[key])
  }

  ghost predicate FullTree(t: Tree) {
    t.Node? ==> t.children != map[] && forall key :: key in t.children ==> FullTree(t.children[key])
  }

  predicate ProperPrefix(p: seq<string>, q: seq<string>) {
    p < q
  }

  lemma {:induction false} HoldsFunctional(f: Forest, p: seq<string>, v: string, q: seq<string>, w: string)
    requires Holds(f, p, v) && Holds(f, q, w)
    ensures !ProperPrefix(p, q)
    ensures p == q ==> v == w
    decreases |p|
  {
    if p[0] == q[0] && f[p[0]].Node? {
      HoldsFunctional(f[p[0]].children, p[1..], v, q[1..], w);
      assert p == [p[0]] + p[1..] && q == [q[0]] + q[1..];
    }
  }

  lemma {:induction false} FullHasLeaf(t: Tree) returns (path: seq<string>, value: string)
    requires FullTree(t) && t.Node?
    ensures Holds(t.children, path, value)
  {
    var key :| key in t.children;
    match t.children[key]
    case Leaf(v) =>
      path, value := [key], v;
    case Node(_) =>
      var below, v := FullHasLeaf(t.children[key]);
      path, value := [key] + below, v;
      assert path[1..] == below;
  }

  ghost predicate SameLeaves(f: Forest, g: Forest) {
    forall path, value :: Holds(f, path, value) <==> Holds(g, path, value)
  }

  /** Trees without empty nodes that flatten alike are equal. */
  lemma LeavesDetermineTree(f: Forest, g: Forest)
    requires Full(f) && Full(g) && SameLeaves(f, g)
    ensures f == g
  {
    SameNodes(Node(f), Node(g));
  }

  lemma {:induction false} SameNodes(t: Tree, u: Tree)
    requires t.Node? && u.Node? && Full(t.children) && Full(u.children) && SameLeaves(t.children, u.children)
    ensures t == u
    decreases t, 1
  {
    forall key | key in t.children ensures key in u.children && u.children[key] == t.children[key] {
      SameChild(t, u, key);
    }
    forall key | key in u.children ensures key in t.children {
      HasLeafUnder(u.children, key);
    }
  }

  /** Every key leads to a leaf. */
  lemma HasLeafUnder(f: Forest, key: string)
    requires Full(f) && key in f
    ensures exists path, value :: Holds(f, path, value) && path[0] == key
  {
    match f[key]
    case Leaf(v) =>
      assert Holds(f, [key], v);
    case Node(_) =>
      var below, v := FullHasLeaf(f[key]);
      assert ([key] + below)[1..] == below;
      assert Holds(f, [key] + below, v);
  }

  lemma LeafAt(f: Forest, key: string, value: string)
    ensures Holds(f, [key], value) <==> key in f && f[key] == Leaf(value)
  {
    if key in f && f[key].Node? {
      assert !Holds(f[key].children, [key][1..], value);
    }
  }

  lemma {:induction false} SameChild(t: Tree, u: Tree, key: string)
    requires t.Node? && u.Node? && Full(t.children) && Full(u.children) && SameLeaves(t.children, u.children)
    requires key in t.children
    ensures key in u.children && u.children[key] == t.children[key]
    decreases t, 0
  {
    var f, g := t.children, u.children;
    HasLeafUnder(f, key);
    match f[key]
    case Leaf(v) =>
      LeafAt(f, key, v);
      LeafAt(g, key, v);
    case Node(_) =>
      var below, v := FullHasLeaf(f[key]);
      assert ([key] + below)[1..] == below;
      assert Holds(f, [key] + below, v);
      assert Holds(g, [key] + below, v);
      forall path, value ensures Holds(f[key].children, path, value) <==> Holds(g[key].children, path, value) {
        assert ([key] + path)[1..] == path;
        assert Holds(f, [key] + path, value) <==> Holds(g, [key] + path, value);
      }
      SameNodes(f[key], g[key]);
  }

  // ---------- what one insertion does ----------

  ghost predicate Blocked(f: Forest, path: seq<string>) {
    exists p, v :: Holds(f, p, v) && ProperPrefix(p, path)
  }

  /** Putting a value fails exactly when a leaf lies on the way; otherwise it replaces everything at and below
      the path and keeps the rest. */
  lemma {:induction false} PutExactly(f: Forest, path: seq<string>, value: string)
    requires path != [] && Full(f)
    ensures Put(f, path, value).Panic? <==> Blocked(f, path)
    ensures Put(f, path, value).Ok? ==>
              Full(Put(f, path, value).value)
              && forall q, w :: Holds(Put(f, path, value).value, q, w)
                                <==> (q == path && w == value) || (Holds(f, q, w) && !(path <= q))
    decreases |path|
  {
    if |path| == 1 {
      PutLeafExactly(f, path, value);
    } else {
      PutBelowExactly(f, path, value);
    }
  }

  lemma PutLeafExactly(f: Forest, path: seq<string>, value: string)
    requires |path| == 1 && Full(f)
    ensures !Blocked(f, path)
    ensures var g := f[path[0] := Leaf(value)];
      Full(g) && forall q, w :: Holds(g, q, w) <==> (q == path && w == value) || (Holds(f, q, w) && !(path <= q))
  {
    var g := f[path[0] := Leaf(value)];
    forall q, w ensures Holds(g, q, w) <==> (q == path && w == value) || (Holds(f, q, w) && !(path <= q)) {
      if q != [] && q[0] == path[0] {
        assert path <= q;
        assert |q| == 1 ==> q == path;
      }
    }
  }

  lemma {:induction false} PutBelowExactly(f: Forest, path: seq<string>, value: string)
    requires |path| > 1 && Full(f)
    ensures Put(f, path, value).Panic? <==> Blocked(f, path)
    ensures Put(f, path, value).Ok? ==>
              Full(Put(f, path, value).value)
              && forall q, w :: Holds(Put(f, path, value).value, q, w)
                                <==> (q == path && w == value) || (Holds(f, q, w) && !(path <= q))
    decreases |path|, 0
  {
    var key, rest := path[0], path[1..];
    assert path == [key] + rest;
    if key in f && f[key].Leaf? {
      assert Holds(f, [key], f[key].value) && ProperPrefix([key], path);
    } else {
      var children := if key in f then f[key].children else map[];
      PutExactly(children, rest, value);
      BlockedBelow(f, children, path);
      if Put(children, rest, value).Ok? {
        GrownExactly(f, children, Put(children, rest, value).value, path, value);
      }
    }
  }

  lemma BlockedBelow(f: Forest, children: Forest, path: seq<string>)
    requires |path| > 1
    requires if path[0] in f then f[path[0]] == Node(children) else children == map[]
    ensures Blocked(f, path) <==> Blocked(children, path[1..])
  {
    if Blocked(f, path) {
      var p, v :| Holds(f, p, v) && ProperPrefix(p, path);
      assert p[0] == path[0];
      assert Holds(children, p[1..], v) && ProperPrefix(p[1..], path[1..]);
    }
    if Blocked(children, path[1..]) {
      var p, v :| Holds(children, p, v) && ProperPrefix(p, path[1..]);
      var q := [path[0]] + p;
      assert q[1..] == p;
      assert Holds(f, q, v) && ProperPrefix(q, path);
    }
  }

  lemma GrownExactly(f: Forest, children: Forest, grown: Forest, path: seq<string>, value: string)
    requires |path| > 1 && Full(f) && Full(grown)
    requires if path[0] in f then f[path[0]] == Node(children) else children == map[]
    requires forall q, w :: Holds(grown, q, w)
                            <==> (q == path[1..] && w == value) || (Holds(children, q, w) && !(path[1..] <= q))
    ensures var g := f[path[0] := Node(grown)];
      Full(g) && forall q, w :: Holds(g, q, w) <==> (q == path && w == value) || (Holds(f, q, w) && !(path <= q))
  {
    var g := f[path[0] := Node(grown)];
    assert Holds(grown, path[1..], value);
    assert grown != map[];
    forall q, w ensures Holds(g, q, w) <==> (q == path && w == value) || (Holds(f, q, w) && !(path <= q)) {
      if q != [] && q[0] == path[0] {
        assert q == [q[0]] + q[1..] && path == [path[0]] + path[1..];
        assert path <= q <==> path[1..] <= q[1..];
        assert Holds(g, q, w) <==> Holds(grown, q[1..], w);
      }
    }
  }

  // ---------- building from many entries ----------

  /** No path leads through another entry's leaf, and equal paths carry equal values. */
  ghost predicate Compatible(entries: seq<Entry>) {
    forall d, e :: d in entries && e in entries ==>
      !ProperPrefix(d.path, e.path) && (d.path == e.path ==> d.value == e.value)
  }

  ghost predicate NonEmptyPaths(entries: seq<Entry>) {
    forall e :: e in entries ==> e.path != []
  }

  ghost predicate FlattensTo(f: Forest, entries: seq<Entry>) {
    forall path, value :: Holds(f, path, value) <==> Entry(path, value) in entries
  }

  /** Compatible entries build a tree that flattens to exactly them. */
  lemma {:induction false} BuildFlattens(entries: seq<Entry>)
    requires NonEmptyPaths(entries) && Compatible(entries)
    ensures Build(entries).Ok? && Full(Build(entries).value) && FlattensTo(Build(entries).value, entries)
  {
    if entries != [] {
      var init, last := entries[..|entries| - 1], entries[|entries| - 1];
      assert entries == init + [last];
      BuildFlattens(init);
      var f := Build(init).value;
      PutExactly(f, last.path, last.value);
      assert last in entries && !Blocked(f, last.path);
      forall path, value ensures Holds(Build(entries).value, path, value) <==> Entry(path, value) in entries {
        if Entry(path, value) in init && last.path <= path {
          assert Entry(path, value) in entries && last in entries;
          assert path == last.path;
        }
      }
    }
  }

  /** The same entries in another order, possibly repeated, build the same tree. */
  lemma OrderIsIrrelevant(entries: seq<Entry>, others: seq<Entry>)
    requires NonEmptyPaths(entries) && Compatible(entries)
    requires forall e :: e in entries <==> e in others
    ensures Build(others).Ok? && Build(others) == Build(entries)
  {
    BuildFlattens(entries);
    BuildFlattens(others);
    LeavesDetermineTree(Build(others).value, Build(entries).value);
  }

  /** Building is the inverse of flattening: any list of a tree's leaves builds the tree. */
  lemma BuildInvertsFlatten(f: Forest, entries: seq<Entry>)
    requires Full(f) && FlattensTo(f, entries)
    ensures Build(entries) == Ok(f)
  {
    forall d, e | d in entries && e in entries
      ensures !ProperPrefix(d.path, e.path) && (d.path == e.path ==> d.value == e.value)
    {
      HoldsFunctional(f, d.path, d.value, e.path, e.value);
    }
    forall e | e in entries ensures e.path != [] {
      assert Holds(f, e.path, e.value);
    }
    BuildFlattens(entries);
    LeavesDetermineTree(Build(entries).value, f);
  }

  // ---------- the orders in which a form may be visited ----------

  /** The entry of a form key that has a value. */
  function EntryOf(values: map<string, seq<string>>, key: string): Entry
    requires key in values && values[key] != []
  {
    Entry(Parse(key), values[key][0])
  }

  /** One entry's leaf lies on the other's way, or they disagree about one path. */
  predicate Conflict(d: Entry, e: Entry) {
    ProperPrefix(d.path, e.path) || (d.path == e.path && d.value != e.value)
  }

  /** No two keys conflict; a key that parses to no segment at all conflicts with nothing. */
  ghost predicate CompatibleForm(values: map<string, seq<string>>) {
    forall j, k :: j in values && k in values && values[j] != [] && values[k] != [] && Parse(j) != [] ==>
      !Conflict(EntryOf(values, j), EntryOf(values, k))
  }

  /** Every iteration order succeeds, and all give the same tree. */
  ghost predicate OrderFree(values: map<string, seq<string>>) {
    forall a, b :: Enumerates(a, values) && Enumerates(b, values) ==>
      Build(EntriesOf(values, a)).Ok? && Build(EntriesOf(values, a)) == Build(EntriesOf(values, b))
  }

  /** The entries that go anywhere. */
  function Going(entries: seq<Entry>): seq<Entry> {
    if entries == [] then []
    else Going(entries[..|entries| - 1])
         + if entries[|entries| - 1].path == [] then [] else [entries[|entries| - 1]]
  }

  lemma {:induction false} OnlyGoingCount(entries: seq<Entry>)
    ensures Build(Going(entries)) == Build(entries) && NonEmptyPaths(Going(entries))
    ensures forall e :: e in Going(entries) <==> e in entries && e.path != []
  {
    if entries != [] {
      var init, last := entries[..|entries| - 1], entries[|entries| - 1];
      assert entries == init + [last];
      OnlyGoingCount(init);
      if last.path == [] {
        assert Going(entries) == Going(init);
      } else {
        BuildOneMore(Going(init), last);
      }
    }
  }

  lemma {:induction false} EntriesJoin(values: map<string, seq<string>>, a: seq<string>, b: seq<string>)
    requires forall key :: key in a + b ==> key in values
    ensures EntriesOf(values, a + b) == EntriesOf(values, a) + EntriesOf(values, b)
  {
    hide Parse;
    if b == [] {
      assert a + b == a;
    } else {
      var init := b[..|b| - 1];
      assert (a + b)[..|a + b| - 1] == a + init;
      EntriesJoin(values, a, init);
    }
  }

  lemma EntriesOfTwo(values: map<string, seq<string>>, j: string, k: string)
    requires j in values && k in values && values[j] != [] && values[k] != []
    ensures EntriesOf(values, [j, k]) == [EntryOf(values, j), EntryOf(values, k)]
  {
    hide Parse;
    assert [j, k][..1] == [j] && [j][..0] == [];
    assert EntriesOf(values, [j]) == [EntryOf(values, j)];
  }

  /** What goes anywhere in an enumerated form is compatible if the form is. */
  lemma GoingOf(values: map<string, seq<string>>, a: seq<string>)
    requires CompatibleForm(values) && Enumerates(a, values)
    ensures Compatible(Going(EntriesOf(values, a)))
    ensures forall e :: e in Going(EntriesOf(values, a))
                        <==> e.path != []
                             && exists key :: key in values && values[key] != [] && e == EntryOf(values, key)
  {
    OnlyGoingCount(EntriesOf(values, a));
    hide Parse, Going, EntriesOf, Build;
    forall e ensures e in EntriesOf(values, a)
                     <==> exists key :: key in values && values[key] != [] && e == EntryOf(values, key)
    {
      EntriesExactly(values, a, e);
    }
  }

  lemma CompatibleBuilds(values: map<string, seq<string>>, a: seq<string>, b: seq<string>)
    requires CompatibleForm(values) && Enumerates(a, values) && Enumerates(b, values)
    ensures Build(EntriesOf(values, a)).Ok? && Build(EntriesOf(values, a)) == Build(EntriesOf(values, b))
  {
    GoingOf(values, a);
    GoingOf(values, b);
    OnlyGoingCount(EntriesOf(values, a));
    OnlyGoingCount(EntriesOf(values, b));
    hide CompatibleForm, Compatible, Enumerates, NonEmptyPaths, Going, EntriesOf, Build, EntryOf;
    OrderIsIrrelevant(Going(EntriesOf(values, a)), Going(EntriesOf(values, b)));
  }

  /** What two conflicting keys do, visited before the others or after them. */
  lemma ConflictingEntries(values: map<string, seq<string>>, j: string, k: string, rest: seq<string>)
    requires j in values && k in values && values[j] != [] && values[k] != []
    requires forall key :: key in rest ==> key in values
    ensures var d, e, others := EntryOf(values, j), EntryOf(values, k), EntriesOf(values, rest);
      && EntriesOf(values, [j, k] + rest) == [d, e] + others
      && EntriesOf(values, rest + [j, k]) == others + [d, e]
  {
    EntriesJoin(values, [j, k], rest);
    EntriesJoin(values, rest, [j, k]);
    EntriesOfTwo(values, j, k);
  }

  lemma TwoOrders(values: map<string, seq<string>>, a: seq<string>, b: seq<string>)
    requires Enumerates(a, values) && Enumerates(b, values)
    requires !(Build(EntriesOf(values, a)).Ok? && Build(EntriesOf(values, a)) == Build(EntriesOf(values, b)))
    ensures !OrderFree(values)
  {
    hide Enumerates, EntriesOf, Build;
  }

  lemma ConflictMatters(values: map<string, seq<string>>, j: string, k: string)
    requires j in values && k in values && values[j] != [] && values[k] != [] && Parse(j) != []
    requires Conflict(EntryOf(values, j), EntryOf(values, k))
    ensures !OrderFree(values)
  {
    var rest := OrdersAround(values, j, k);
    var d, e, others := EntryOf(values, j), EntryOf(values, k), EntriesOf(values, rest);
    assert d.path != [] && (ProperPrefix(d.path, e.path) || (d.path == e.path && d.value != e.value));
    hide *;
    ConflictingEntries(values, j, k, rest);
    ConflictingEntries(values, k, j, rest);
    if ProperPrefix(d.path, e.path) {
      LeafInTheWay(d, e, others);
      TwoOrders(values, [j, k] + rest, [j, k] + rest);
    } else {
      LastOneWins(others, d, e);
      TwoOrders(values, rest + [j, k], rest + [k, j]);
    }
  }

  /** Every iteration order of a form succeeds and gives the same tree exactly when no key's path leads through
      another's leaf and keys with one path carry one value. */
  lemma OrderFreeIffCompatible(values: map<string, seq<string>>)
    ensures OrderFree(values) <==> CompatibleForm(values)
  {
    if CompatibleForm(values) {
      forall a, b | Enumerates(a, values) && Enumerates(b, values)
        ensures Build(EntriesOf(values, a)).Ok? && Build(EntriesOf(values, a)) == Build(EntriesOf(values, b))
      {
        CompatibleBuilds(values, a, b);
      }
    } else {
      var j, k :| j in values && k in values && values[j] != [] && values[k] != [] && Parse(j) != []
        && Conflict(EntryOf(values, j), EntryOf(values, k));
      ConflictMatters(values, j, k);
    }
  }

  lemma {:induction false} PanicStays(first: seq<Entry>, rest: seq<Entry>)
    requires Build(first).Panic?
    ensures Build(first + rest).Panic?
  {
    if rest == [] {
      assert first + rest == first;
    } else {
      var init := rest[..|rest| - 1];
      PanicStays(first, init);
      assert first + rest == (first + init) + [rest[|rest| - 1]];
      BuildOneMore(first + init, rest[|rest| - 1]);
    }
  }

  lemma LeafInTheWay(d: Entry, e: Entry, rest: seq<Entry>)
    requires d.path != [] && ProperPrefix(d.path, e.path)
    ensures Build([d, e] + rest).Panic?
  {
    BuildFlattens([d]);
    BuildOneMore([d], e);
    assert [d] + [e] == [d, e];
    assert Holds(Build([d]).value, d.path, d.value);
    PutExactly(Build([d]).value, e.path, e.value);
    PanicStays([d, e], rest);
  }

  lemma LastOneWins(rest: seq<Entry>, d: Entry, e: Entry)
    requires d.path == e.path != [] && d.value != e.value
    ensures !(Build(rest + [d, e]).Ok? && Build(rest + [d, e]) == Build(rest + [e, d]))
  {
    LastHolds(rest, d, e);
    LastHolds(rest, e, d);
    if Build(rest + [d, e]).Ok? && Build(rest + [d, e]) == Build(rest + [e, d]) {
      HoldsFunctional(Build(rest + [d, e]).value, d.path, d.value, e.path, e.value);
    }
  }

  lemma {:induction false} BuiltIsFull(entries: seq<Entry>)
    ensures Build(entries).Ok? ==> Full(Build(entries).value)
  {
    if entries != [] {
      var init, last := entries[..|entries| - 1], entries[|entries| - 1];
      BuiltIsFull(init);
      if Build(init).Ok? && last.path != [] {
        PutExactly(Build(init).value, last.path, last.value);
      }
    }
  }

  lemma LastHolds(rest: seq<Entry>, d: Entry, e: Entry)
    requires e.path != []
    ensures Build(rest + [d, e]).Ok? ==> Holds(Build(rest + [d, e]).value, e.path, e.value)
  {
    assert rest + [d, e] == (rest + [d]) + [e];
    BuildOneMore(rest + [d], e);
    BuiltIsFull(rest + [d]);
    if Build(rest + [d]).Ok? {
      PutExactly(Build(rest + [d]).value, e.path, e.value);
    }
  }

  // ---------- the form values a tree is posted as ----------

  /** Every key of the tree can be printed between brackets. */
  ghost predicate Keyed(f: Forest) {
    forall path, value :: Holds(f, path, value) ==> Segments(path)
  }

  lemma KeyedStep(f: Forest)
    requires forall key :: key in f ==> Segment(key) && (f[key].Node? ==> Keyed(f[key].children))
    ensures Keyed(f)
  {
    forall path, value | Holds(f, path, value) ensures Segments(path) {
      if f[path[0]].Node? {
        assert Holds(f[path[0]].children, path[1..], value);
      }
      assert path == [path[0]] + path[1..];
    }
  }

  /** The form has a value under the printed path of every leaf, the leaf's own first, and no other values. */
  ghost predicate IsFormOf(values: map<string, seq<string>>, f: Forest) {
    && (forall path, value :: Holds(f, path, value) ==>
          Print(path) in values && values[Print(path)] != [] && values[Print(path)][0] == value)
    && (forall key :: key in values && values[key] != [] ==>
          exists path, value :: Holds(f, path, value) && key == Print(path))
  }

  lemma {:induction false} EntriesExactly(values: map<string, seq<string>>, order: seq<string>, e: Entry)
    requires forall key :: key in order ==> key in values
    ensures e in EntriesOf(values, order)
            <==> exists key :: key in order && values[key] != [] && e == Entry(Parse(key), values[key][0])
  {
    hide Parse;
    if order != [] {
      var init, last := order[..|order| - 1], order[|order| - 1];
      assert order == init + [last];
      EntriesExactly(values, init, e);
    }
  }

  /** The form of a tree builds the tree again, whatever the iteration order. */
  lemma PostedFormBuilds(values: map<string, seq<string>>, f: Forest, order: seq<string>)
    requires Full(f) && Keyed(f) && IsFormOf(values, f) && Enumerates(order, values)
    ensures Build(EntriesOf(values, order)) == Ok(f)
  {
    hide Print, Parse, Holds, EntriesOf, Full;
    forall path, value ensures Holds(f, path, value) <==> Entry(path, value) in EntriesOf(values, order) {
      var e := Entry(path, value);
      EntriesExactly(values, order, e);
      if Holds(f, path, value) {
        ParsePrint(path);
        assert Print(path) in order;
      }
      if e in EntriesOf(values, order) {
        var key :| key in order && values[key] != [] && e == Entry(Parse(key), values[key][0]);
        var p, v :| Holds(f, p, v) && key == Print(p);
        ParsePrint(p);
      }
    }
    BuildInvertsFlatten(f, EntriesOf(values, order));
  }
}
