/**
 The side-by-side view of a read diff: which old line stands beside which new line
 (crates/sylvops-core/src/changes.rs:351-384).
 */
module SideBySide {
  import opened Wrappers
  import opened Changes

  datatype Row = Row(left: Option<nat>, right: Option<nat>)

  predicate IsChange(kind: LineKind) {
    kind.Addition? || kind.Deletion?
  }

  // ----- reference definitions ------------------------------------------------------------------------

  /** The indices from `lo` up to `hi` whose line is of that kind, in order. */
  function Pick(kinds: seq<LineKind>, lo: nat, hi: nat, kind: LineKind): seq<nat>
    requires lo <= hi <= |kinds|
    decreases hi
  {
    if lo == hi then [] else Pick(kinds, lo, hi - 1, kind) + if kinds[hi - 1] == kind then [hi - 1] else []
  }

  /** All indices whose line is not of that kind, in order. */
  function Without(kinds: seq<LineKind>, lo: nat, kind: LineKind): seq<nat>
    requires lo <= |kinds|
    decreases |kinds| - lo
  {
    if lo == |kinds| then [] else (if kinds[lo] != kind then [lo] else []) + Without(kinds, lo + 1, kind)
  }

  function Cell(cell: Option<nat>): seq<nat> {
    if cell.Some? then [cell.value] else []
  }

  function Lefts(rows: seq<Row>): seq<nat> {
    if rows == [] then [] else Cell(rows[0].left) + Lefts(rows[1..])
  }

  function Rights(rows: seq<Row>): seq<nat> {
    if rows == [] then [] else Cell(rows[0].right) + Rights(rows[1..])
  }

  /** The end of the run of changes that starts at `i`. */
  function ChangeEnd(kinds: seq<LineKind>, i: nat): (e: nat)
    requires i <= |kinds|
    ensures i <= e <= |kinds|
    ensures forall j | i <= j < e :: IsChange(kinds[j])
    ensures e < |kinds| ==> !IsChange(kinds[e])
    decreases |kinds| - i
  {
    if i < |kinds| && IsChange(kinds[i]) then ChangeEnd(kinds, i + 1) else i
  }

  function At(s: seq<nat>, n: nat): Option<nat> {
    if n < |s| then Some(s[n]) else None
  }

  function Max(a: nat, b: nat): nat {
    if a <= b then b else a
  }

  /** The n-th removal beside the n-th addition; the longer side goes on alone. */
  function Paired(left: seq<nat>, right: seq<nat>): (rows: seq<Row>)
    ensures |rows| == Max(|left|, |right|)
  {
    seq(Max(|left|, |right|), n requires 0 <= n => Row(At(left, n), At(right, n)))
  }

  function Aligned(kinds: seq<LineKind>, i: nat): seq<Row>
    requires i <= |kinds|
    decreases |kinds| - i
  {
    if i == |kinds| then []
    else if IsChange(kinds[i]) then
      var e := ChangeEnd(kinds, i);
      Paired(Pick(kinds, i, e, Deletion), Pick(kinds, i, e, Addition)) + Aligned(kinds, e)
    else [Row(Some(i), Some(i))] + Aligned(kinds, i + 1)
  }

  function Kinds(lines: seq<ChangeLine>): (r: seq<LineKind>)
    ensures |r| == |lines|
  {
    seq(|lines|, i requires 0 <= i < |lines| => lines[i].kind)
  }

  // ----- the algorithm ----------------------------------------------------------------------------------

  /** The two sides of the run of changes that starts at `start`. */
  method CollectChanges(lines: seq<ChangeLine>, start: nat) returns (left: seq<nat>, right: seq<nat>, i: nat)
    requires start <= |lines|
    ensures i == ChangeEnd(Kinds(lines), start)
    ensures left == Pick(Kinds(lines), start, i, Deletion) && right == Pick(Kinds(lines), start, i, Addition)
  {
    ghost var kinds := Kinds(lines);
    left, right, i := [], [], start;
    while i < |lines| && IsChange(lines[i].kind)
      invariant start <= i <= |lines|
      invariant ChangeEnd(kinds, i) == ChangeEnd(kinds, start)
      invariant left == Pick(kinds, start, i, Deletion) && right == Pick(kinds, start, i, Addition)
    {
      if lines[i].kind == Deletion {
        left := left + [i];
      } else {
        right := right + [i];
      }
      i := i + 1;
    }
  }

  method PairRows(left: seq<nat>, right: seq<nat>) returns (rows: seq<Row>)
    ensures rows == Paired(left, right)
  {
    rows := [];
    for n := 0 to Max(|left|, |right|)
      invariant rows == Paired(left, right)[..n]
    {
      rows := rows + [Row(At(left, n), At(right, n))];
    }
  }

  method SplitRows(lines: seq<ChangeLine>) returns (rows: seq<Row>)
    ensures rows == Aligned(Kinds(lines), 0)
  {
    rows := [];
    var i := 0;
    while i < |lines|
      invariant 0 <= i <= |lines|
      invariant rows + Aligned(Kinds(lines), i) == Aligned(Kinds(lines), 0)
    {
      if IsChange(lines[i].kind) {
        var left, right, end := CollectChanges(lines, i);
        var paired := PairRows(left, right);
        RowsGoOn(rows, paired, Aligned(Kinds(lines), end));
        rows, i := rows + paired, end;
      } else {
        RowsGoOn(rows, [Row(Some(i), Some(i))], Aligned(Kinds(lines), i + 1));
        rows, i := rows + [Row(Some(i), Some(i))], i + 1;
      }
    }
  }

  lemma RowsGoOn(a: seq<Row>, b: seq<Row>, c: seq<Row>)
    ensures (a + b) + c == a + (b + c)
  {
  }

  // ----- the columns --------------------------------------------------------------------------------------

  lemma {:induction false} LeftsOfConcatenation(a: seq<Row>, b: seq<Row>)
    ensures Lefts(a + b) == Lefts(a) + Lefts(b)
  {
    if a == [] {
      assert a + b == b;
    } else {
      var rows, first := a + b, Cell(a[0].left);
      LeftsOfConcatenation(a[1..], b);
      assert rows[0] == a[0] && rows[1..] == a[1..] + b;
      assert Lefts(rows) == first + (Lefts(a[1..]) + Lefts(b));
      assert Lefts(a) == first + Lefts(a[1..]);
    }
  }

  lemma {:induction false} RightsOfConcatenation(a: seq<Row>, b: seq<Row>)
    ensures Rights(a + b) == Rights(a) + Rights(b)
  {
    if a == [] {
      assert a + b == b;
    } else {
      var rows, first := a + b, Cell(a[0].right);
      RightsOfConcatenation(a[1..], b);
      assert rows[0] == a[0] && rows[1..] == a[1..] + b;
      assert Rights(rows) == first + (Rights(a[1..]) + Rights(b));
      assert Rights(a) == first + Rights(a[1..]);
    }
  }

  lemma ColumnsOfConcatenation(a: seq<Row>, b: seq<Row>)
    ensures Lefts(a + b) == Lefts(a) + Lefts(b) && Rights(a + b) == Rights(a) + Rights(b)
  {
    LeftsOfConcatenation(a, b);
    RightsOfConcatenation(a, b);
  }

  lemma {:induction false} ColumnsOfPaired(left: seq<nat>, right: seq<nat>)
    ensures Lefts(Paired(left, right)) == left && Rights(Paired(left, right)) == right
    decreases |left| + |right|
  {
    if left != [] || right != [] {
      var moreLeft := if left == [] then [] else left[1..];
      var moreRight := if right == [] then [] else right[1..];
      assert Paired(left, right)[1..] == Paired(moreLeft, moreRight);
      ColumnsOfPaired(moreLeft, moreRight);
    }
  }

  /** Within one run of changes the lines that are not additions are the removals, and conversely. */
  lemma {:induction false} WithoutOverChanges(kinds: seq<LineKind>, lo: nat, hi: nat)
    requires lo <= hi <= |kinds| && forall j | lo <= j < hi :: IsChange(kinds[j])
    ensures Without(kinds, lo, Addition) == Pick(kinds, lo, hi, Deletion) + Without(kinds, hi, Addition)
    ensures Without(kinds, lo, Deletion) == Pick(kinds, lo, hi, Addition) + Without(kinds, hi, Deletion)
    decreases hi
  {
    if lo < hi {
      WithoutOverChanges(kinds, lo, hi - 1);
    }
  }

  lemma {:induction false} ColumnsFrom(kinds: seq<LineKind>, i: nat)
    requires i <= |kinds|
    ensures Lefts(Aligned(kinds, i)) == Without(kinds, i, Addition)
    ensures Rights(Aligned(kinds, i)) == Without(kinds, i, Deletion)
    decreases |kinds| - i
  {
    if i < |kinds| {
      if IsChange(kinds[i]) {
        var e := ChangeEnd(kinds, i);
        var left, right := Pick(kinds, i, e, Deletion), Pick(kinds, i, e, Addition);
        ColumnsFrom(kinds, e);
        ColumnsOfPaired(left, right);
        ColumnsOfConcatenation(Paired(left, right), Aligned(kinds, e));
        WithoutOverChanges(kinds, i, e);
      } else {
        ColumnsFrom(kinds, i + 1);
        ColumnsOfConcatenation([Row(Some(i), Some(i))], Aligned(kinds, i + 1));
        ColumnsOfPaired([i], [i]);
        assert Paired([i], [i]) == [Row(Some(i), Some(i))];
      }
    }
  }

  /** Read downwards, each side shows its own lines once and in order. */
  lemma {:induction false} ColumnsAreFaithful(kinds: seq<LineKind>)
    ensures Lefts(Aligned(kinds, 0)) == Without(kinds, 0, Addition)
    ensures Rights(Aligned(kinds, 0)) == Without(kinds, 0, Deletion)
  {
    ColumnsFrom(kinds, 0);
  }

  // ----- the rows -------------------------------------------------------------------------------------------

  /** A maximal run of changes. */
  predicate Block(kinds: seq<LineKind>, lo: nat, hi: nat) {
    && lo < hi <= |kinds|
    && (forall j | lo <= j < hi :: IsChange(kinds[j]))
    && (lo > 0 ==> !IsChange(kinds[lo - 1]))
    && (hi < |kinds| ==> !IsChange(kinds[hi]))
  }

  predicate RowOfBlock(kinds: seq<LineKind>, row: Row, lo: nat, hi: nat, n: nat) {
    && Block(kinds, lo, hi)
    && n < Max(|Pick(kinds, lo, hi, Deletion)|, |Pick(kinds, lo, hi, Addition)|)
    && row == Row(At(Pick(kinds, lo, hi, Deletion), n), At(Pick(kinds, lo, hi, Addition), n))
  }

  predicate RowOfOneLine(kinds: seq<LineKind>, row: Row) {
    row.left.Some? && row.left == row.right && row.left.value < |kinds| && !IsChange(kinds[row.left.value])
  }

  /** An unchanged line beside itself, or the n-th removal and the n-th addition of one block. */
  ghost predicate Corresponds(kinds: seq<LineKind>, row: Row) {
    RowOfOneLine(kinds, row) || exists lo, hi, n :: RowOfBlock(kinds, row, lo, hi, n)
  }

  lemma {:induction false} RowsFrom(kinds: seq<LineKind>, i: nat)
    requires i <= |kinds|
    requires 0 < i < |kinds| && IsChange(kinds[i]) ==> !IsChange(kinds[i - 1])
    ensures forall k | 0 <= k < |Aligned(kinds, i)| :: Corresponds(kinds, Aligned(kinds, i)[k])
    decreases |kinds| - i
  {
    if i < |kinds| {
      if IsChange(kinds[i]) {
        var e := ChangeEnd(kinds, i);
        var rows := Paired(Pick(kinds, i, e, Deletion), Pick(kinds, i, e, Addition));
        forall n | 0 <= n < |rows| ensures Corresponds(kinds, rows[n]) {
          assert RowOfBlock(kinds, rows[n], i, e, n);
        }
        RowsFrom(kinds, e);
      } else {
        assert RowOfOneLine(kinds, Row(Some(i), Some(i)));
        RowsFrom(kinds, i + 1);
      }
    }
  }

  /** No correspondence is invented, and no row is empty on both sides. */
  lemma {:induction false} EveryRowCorresponds(kinds: seq<LineKind>)
    ensures forall row | row in Aligned(kinds, 0) :: Corresponds(kinds, row) && (row.left.Some? || row.right.Some?)
  {
    RowsFrom(kinds, 0);
  }
}
