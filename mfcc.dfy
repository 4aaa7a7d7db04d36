/**
 * The shape step of the server's audio preprocessing (app.py,
 * preprocess_audio): the MFCC matrix, one row per coefficient and one column
 * per frame, is zero-padded on the right or cut so that it has exactly
 * TargetFrames columns. The coefficient values themselves are not modelled
 * beyond being carried over unchanged.
 */
module MfccShape {
  import opened Optional

  const TargetFrames: nat := 94

  /** A two-dimensional array: its rows and its column count (kept even when there are no rows). */
  datatype Matrix = Matrix(rows: seq<seq<real>>, cols: nat)

  predicate WellShaped(m: Matrix)
  {
    forall i :: 0 <= i < |m.rows| ==> |m.rows[i]| == m.cols
  }

  /** `row` followed by `n` zeros (numpy's constant padding after the end). */
  function PadRow(row: seq<real>, n: nat): (r: seq<real>)
    ensures |r| == |row| + n
    ensures r[..|row|] == row
    ensures forall j :: |row| <= j < |r| ==> r[j] == 0.0
  {
    row + seq(n, _ => 0.0)
  }

  /** The pad-or-truncate step: the result always has TargetFrames columns. */
  function FitFrames(m: Matrix): (r: Matrix)
    requires WellShaped(m)
    ensures WellShaped(r) && r.cols == TargetFrames && |r.rows| == |m.rows|
    ensures forall i, j :: 0 <= i < |m.rows| && 0 <= j < TargetFrames ==>
      r.rows[i][j] == if j < m.cols then m.rows[i][j] else 0.0
  {
    if m.cols < TargetFrames then
      var padWidth := TargetFrames - m.cols;
      Matrix(seq(|m.rows|, i requires 0 <= i < |m.rows| => PadRow(m.rows[i], padWidth)), TargetFrames)
    else if m.cols > TargetFrames then
      Matrix(seq(|m.rows|, i requires 0 <= i < |m.rows| => m.rows[i][..TargetFrames]), TargetFrames)
    else
      m
  }

  /**
   * The shape part of preprocess_audio: empty audio (after resampling)
   * yields None; otherwise the MFCC matrix computed from it, fitted to
   * TargetFrames columns.
   */
  function PreprocessShape(audioSize: nat, mfccs: Matrix): (r: Option<Matrix>)
    requires WellShaped(mfccs)
    ensures r.None? <==> audioSize == 0
    ensures r.Some? ==>
      (WellShaped(r.value) && r.value.cols == TargetFrames && |r.value.rows| == |mfccs.rows|)
  {
    if audioSize == 0 then None else Some(FitFrames(mfccs))
  }

  /** The first `n` columns of every row. */
  function TakeColumns(m: Matrix, n: nat): Matrix
    requires WellShaped(m) && n <= m.cols
  {
    Matrix(seq(|m.rows|, i requires 0 <= i < |m.rows| => m.rows[i][..n]), n)
  }

  /** Padding loses nothing: a short matrix is recovered by cutting the padding off again. */
  lemma PaddingIsUndone(m: Matrix)
    requires WellShaped(m) && m.cols <= TargetFrames
    ensures TakeColumns(FitFrames(m), m.cols) == m
  {
    var f := FitFrames(m);
    var t := TakeColumns(f, m.cols);
    forall i | 0 <= i < |m.rows| ensures t.rows[i] == m.rows[i] {
      forall j | 0 <= j < m.cols ensures t.rows[i][j] == m.rows[i][j] {
        assert t.rows[i][j] == f.rows[i][j];
      }
    }
  }

  /** A long matrix keeps exactly its first TargetFrames columns. */
  lemma TruncationKeepsPrefix(m: Matrix)
    requires WellShaped(m) && m.cols >= TargetFrames
    ensures FitFrames(m) == TakeColumns(m, TargetFrames)
  {
    var f := FitFrames(m);
    var t := TakeColumns(m, TargetFrames);
    forall i | 0 <= i < |m.rows| ensures f.rows[i] == t.rows[i] {
      forall j | 0 <= j < TargetFrames ensures f.rows[i][j] == t.rows[i][j] {
      }
    }
  }

  /** Fitting an already fitted matrix changes nothing. */
  lemma FitFramesIdempotent(m: Matrix)
    requires WellShaped(m)
    ensures FitFrames(FitFrames(m)) == FitFrames(m)
  {
  }
}
