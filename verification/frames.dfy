/** Data frames as the views of a dataset produce them: a row label per row (the
    cell name), column names, and one row of values per label. */
module Frames {
  import opened Wrappers
  import opened Seqs

  /** One table cell. Numbers are opaque: the model never computes with them.
      `Missing` is the NaN a left join puts where the right frame has no row. */
  datatype Value = Num(x: real) | Label(s: string) | Missing

  datatype Frame = Frame(index: seq<string>, columns: seq<string>, rows: seq<seq<Value>>)

  /** One row per label and one value per column in every row. */
  predicate WellShaped(f: Frame) {
    && |f.rows| == |f.index|
    && forall i :: 0 <= i < |f.rows| ==> |f.rows[i]| == |f.columns|
  }

  function MissingRow(n: nat): seq<Value> {
    seq(n, _ => Missing)
  }

  /** The row `right` holds for the row label `name`, or a row of NaN when that label is absent. */
  function RowFor(right: Frame, name: string): (r: seq<Value>)
    requires WellShaped(right)
    ensures |r| == |right.columns|
    ensures forall j :: 0 <= j < |right.index| && right.index[j] == name && name !in right.index[..j] ==> r == right.rows[j]
    ensures name !in right.index ==> r == MissingRow(|right.columns|)
  {
    match IndexOf(right.index, name)
    case Some(j) => right.rows[j]
    case None => MissingRow(|right.columns|)
  }

  /** No column name occurs in both frames; pandas' `join` raises a ValueError
      otherwise, since no suffixes are given. */
  predicate DisjointColumns(left: Frame, right: Frame) {
    forall c :: c in left.columns ==> c !in right.columns
  }

  /** pandas' `left.join(right)`: a left join on the row labels. The result keeps
      the left frame's labels and rows in order and appends, to each row, the
      right frame's row with the same label, or NaN when the label is absent. */
  function Join(left: Frame, right: Frame): (r: Frame)
    requires WellShaped(left) && WellShaped(right)
    requires DisjointColumns(left, right)
    ensures WellShaped(r)
    ensures r.index == left.index
    ensures r.columns == left.columns + right.columns
    ensures forall i :: 0 <= i < |r.rows| ==> r.rows[i][..|left.columns|] == left.rows[i]
    ensures forall i :: 0 <= i < |r.rows| ==> r.rows[i][|left.columns|..] == RowFor(right, left.index[i])
  {
    Frame(left.index, left.columns + right.columns,
          seq(|left.rows|, i requires 0 <= i < |left.rows| => left.rows[i] + RowFor(right, left.index[i])))
  }

  /** Joining two frames that share one duplicate-free index puts the i-th rows of
      both side by side: no row is lost, added, reordered or padded with NaN. */
  lemma JoinOnSharedIndex(left: Frame, right: Frame)
    requires WellShaped(left) && WellShaped(right)
    requires DisjointColumns(left, right)
    requires left.index == right.index && NoDup(left.index)
    ensures |Join(left, right).rows| == |left.rows|
    ensures forall i :: 0 <= i < |left.rows| ==> Join(left, right).rows[i] == left.rows[i] + right.rows[i]
  {
  }
}
