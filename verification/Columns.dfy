/** Columns, rows and search definitions of a server-side table. */
module Columns {

  datatype Search = Search(value: string, regexp: bool)

  /** Any order other than "desc" and the empty one counts as ascending. */
  datatype Column = Column(name: string, searchable: bool, orderable: bool, order: string, search: Search)

  /** `address` stands for the address of the row's data, which no other row shares. */
  datatype Row = Row(data: map<string, string>, address: string)

  /** A cell, printed; a missing one prints empty. */
  function Cell(row: Row, name: string): string {
    if name in row.data then row.data[name] else ""
  }

  /** `strings.Compare`. */
  function Compare(a: string, b: string): (c: int)
    ensures c in {-1, 0, 1}
    ensures c == 0 <==> a == b
  {
    if a == "" then (if b == "" then 0 else -1)
    else if b == "" then 1
    else if a[0] != b[0] then (if a[0] < b[0] then -1 else 1)
    else assert a == [a[0]] + a[1..] && b == [b[0]] + b[1..]; Compare(a[1..], b[1..])
  }

  lemma {:induction false} CompareFlips(a: string, b: string)
    ensures Compare(a, b) == -Compare(b, a)
  {
    if a != "" && b != "" && a[0] == b[0] {
      CompareFlips(a[1..], b[1..]);
    }
  }

  lemma {:induction false} CompareTransitive(a: string, b: string, c: string)
    requires Compare(a, b) == -1 && Compare(b, c) == -1
    ensures Compare(a, c) == -1
  {
    if a != "" && b != "" && c != "" && a[0] == b[0] && b[0] == c[0] {
      CompareTransitive(a[1..], b[1..], c[1..]);
    }
  }

  /** The order is lexicographic: a shorter prefix is less, and otherwise the first character that differs decides. */
  lemma {:induction false} CompareIsLexicographic(a: string, b: string)
    ensures Compare(a, b) == -1
            <==> exists k :: 0 <= k <= |a| && k < |b| && a[..k] == b[..k] && (k == |a| || a[k] < b[k])
    ensures Compare(a, b) == 1 <==> Compare(b, a) == -1
  {
    CompareFlips(a, b);
    if a == "" || b == "" {
      assert a == "" && b != "" ==> a[..0] == b[..0];
    } else if a[0] != b[0] {
      assert a[..0] == b[..0];
      forall k | 0 < k <= |a| && k < |b| ensures a[..k] != b[..k] {
        assert a[..k][0] == a[0] && b[..k][0] == b[0];
      }
    } else {
      var c, d := a[1..], b[1..];
      CompareIsLexicographic(c, d);
      if Compare(c, d) == -1 {
        var k :| 0 <= k <= |c| && k < |d| && c[..k] == d[..k] && (k == |c| || c[k] < d[k]);
        assert a[..k + 1] == [a[0]] + c[..k] && b[..k + 1] == [b[0]] + d[..k];
        assert k + 1 == |a| || a[k + 1] < b[k + 1];
      }
      if k :| 0 <= k <= |a| && k < |b| && a[..k] == b[..k] && (k == |a| || a[k] < b[k]) {
        assert k > 0;
        assert c[..k - 1] == a[..k][1..] && d[..k - 1] == b[..k][1..];
        assert k - 1 == |c| || c[k - 1] < d[k - 1];
      }
    }
  }
}
