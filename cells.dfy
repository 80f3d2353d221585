/** Grid coordinates as the placement scans report them, and the row-major order the scans produce. */
module Cells {
  /** (x, y): column first, then row. */
  type Cell = (int, int)

  /** Row-major order: by row, then by column within a row. */
  predicate RowMajorBefore(p: Cell, q: Cell) {
    p.1 < q.1 || (p.1 == q.1 && p.0 < q.0)
  }

  predicate StrictlyRowMajor(s: seq<Cell>) {
    forall i, j :: 0 <= i < j < |s| ==> RowMajorBefore(s[i], s[j])
  }

  /** Two ordered runs, every cell of the first before every cell of the second, make one ordered run. */
  lemma ConcatRowMajor(a: seq<Cell>, b: seq<Cell>)
    requires StrictlyRowMajor(a) && StrictlyRowMajor(b)
    requires forall p, q :: p in a && q in b ==> RowMajorBefore(p, q)
    ensures StrictlyRowMajor(a + b)
  {
    forall i, j | 0 <= i < j < |a + b|
      ensures RowMajorBefore((a + b)[i], (a + b)[j])
    {
      if j < |a| {
        assert (a + b)[i] == a[i] && (a + b)[j] == a[j];
      } else if i >= |a| {
        assert (a + b)[i] == b[i - |a|] && (a + b)[j] == b[j - |a|];
      } else {
        assert (a + b)[i] == a[i] && a[i] in a;
        assert (a + b)[j] == b[j - |a|] && b[j - |a|] in b;
      }
    }
  }

  /** An ordered run has no repeated cell. */
  lemma RowMajorDistinct(s: seq<Cell>)
    requires StrictlyRowMajor(s)
    ensures forall i, j :: 0 <= i < j < |s| ==> s[i] != s[j]
  {}
}
