/**
 * What the analyser needs from the vision library, reduced to sizes and scores.
 * Images are described by their size and provenance only; the library itself is the
 * oracle `Cv`: the size `Imgproc.resize` produces and the normalised correlation score
 * (`TM_CCOEFF_NORMED`) at each template offset. `minMaxLoc` is modelled exactly: the
 * first maximum in row-major order.
 */
module Vision {

  /** An image held by the library; only its size and where it came from matter here. */
  datatype Mat =
    | Image(id: int, cols: nat, rows: nat)                            // a decoded bitmap or template asset
    | Region(of: Mat, left: int, top: int, cols: nat, rows: nat)      // `submat`
    | Gray(of: Mat)                                                   // `cvtColor` to one channel
    | Resized(of: Mat, factor: real, cols: nat, rows: nat)            // `resize` by `factor` on both axes
  {
    function Cols(): nat {
      match this
      case Image(_, c, _) => c
      case Region(_, _, _, c, _) => c
      case Gray(m) => m.Cols()
      case Resized(_, _, c, _) => c
    }

    function Rows(): nat {
      match this
      case Image(_, _, r) => r
      case Region(_, _, _, _, r) => r
      case Gray(m) => m.Rows()
      case Resized(_, _, _, r) => r
    }
  }

  /** The library as an oracle. */
  datatype Cv = Cv(
    resizedSize: (Mat, real) -> (nat, nat),   // (cols, rows) of `resize(m, Size(), s, s)`
    corr: (Mat, Mat, int, int) -> real)       // correlation with the template's top-left at (x, y)

  function Resize(cv: Cv, m: Mat, s: real): (r: Mat)
    ensures r.Cols() == cv.resizedSize(m, s).0 && r.Rows() == cv.resizedSize(m, s).1
  {
    Resized(m, s, cv.resizedSize(m, s).0, cv.resizedSize(m, s).1)
  }

  datatype Point = Point(x: int, y: int)

  /** What `Core.minMaxLoc(result)` reports about the maximum. */
  datatype Peak = Peak(maxVal: real, loc: Point)

  /**
   * A score matrix: the result of `matchTemplate(scene, tpl)` (one cell per offset of the template
   * inside the scene), possibly with rectangles overwritten by -1.0 (`submat(..).setTo(-1.0)`).
   */
  datatype ScoreMap =
    | Matched(cv: Cv, scene: Mat, tpl: Mat)
    | Masked(of: ScoreMap, left: int, top: int, right: int, bottom: int)   // columns [left, right), rows [top, bottom)
  {
    function Width(): int {
      match this
      case Matched(_, scene, tpl) => scene.Cols() - tpl.Cols() + 1
      case Masked(m, _, _, _, _) => m.Width()
    }

    function Height(): int {
      match this
      case Matched(_, scene, tpl) => scene.Rows() - tpl.Rows() + 1
      case Masked(m, _, _, _, _) => m.Height()
    }

    /** The value of cell (x, y). */
    function At(x: int, y: int): real {
      match this
      case Matched(cv, scene, tpl) => cv.corr(scene, tpl, x, y)
      case Masked(m, l, t, r, b) => if l <= x < r && t <= y < b then -1.0 else m.At(x, y)
    }
  }

  /**
   * The first maximum of row `y` among its first `n` cells, scanning left to right and moving only
   * on a strictly greater value.
   */
  function RowPeak(m: ScoreMap, y: int, n: nat): (p: Peak)
    requires 0 < n
    ensures p.loc.y == y && 0 <= p.loc.x < n && p.maxVal == m.At(p.loc.x, y)
  {
    if n == 1 then Peak(m.At(0, y), Point(0, y))
    else
      var p := RowPeak(m, y, n - 1);
      if m.At(n - 1, y) > p.maxVal then Peak(m.At(n - 1, y), Point(n - 1, y)) else p
  }

  /** RowPeak is the first maximum of the row's first `n` cells. */
  lemma {:induction false} RowPeakIsFirstMax(m: ScoreMap, y: int, n: nat)
    requires 0 < n
    ensures var p := RowPeak(m, y, n);
      && (forall x :: 0 <= x < n ==> m.At(x, y) <= p.maxVal)
      && (forall x :: 0 <= x < p.loc.x ==> m.At(x, y) < p.maxVal)
    decreases n
  {
    if n > 1 {
      RowPeakIsFirstMax(m, y, n - 1);
    }
  }

  /** The cell (x, y) comes before `loc` in row-major order. */
  predicate Before(x: int, y: int, loc: Point) {
    y < loc.y || (y == loc.y && x < loc.x)
  }

  /** The first maximum, in row-major order, of the first `rows` rows of `m`. */
  function MapPeak(m: ScoreMap, rows: nat): (p: Peak)
    requires 0 < rows && 0 < m.Width()
    ensures 0 <= p.loc.y < rows && 0 <= p.loc.x < m.Width() && p.maxVal == m.At(p.loc.x, p.loc.y)
  {
    var q := RowPeak(m, rows - 1, m.Width());
    if rows == 1 then q
    else
      var p := MapPeak(m, rows - 1);
      if q.maxVal > p.maxVal then q else p
  }

  /** MapPeak is the first maximum, in row-major order, of the first `rows` rows. */
  lemma {:induction false} MapPeakIsFirstMax(m: ScoreMap, rows: nat)
    requires 0 < rows && 0 < m.Width()
    ensures var p := MapPeak(m, rows);
      && (forall y, x :: 0 <= y < rows && 0 <= x < m.Width() ==> m.At(x, y) <= p.maxVal)
      && (forall y, x :: 0 <= y < rows && 0 <= x < m.Width() && Before(x, y, p.loc) ==> m.At(x, y) < p.maxVal)
    decreases rows
  {
    RowPeakIsFirstMax(m, rows - 1, m.Width());
    if rows > 1 {
      MapPeakIsFirstMax(m, rows - 1);
    }
  }

  /** `minMaxLoc`: the maximum and its location (the library compares with `>`, row by row). */
  function MinMaxLoc(m: ScoreMap): (p: Peak)
    requires 0 < m.Width() && 0 < m.Height()
    ensures 0 <= p.loc.x < m.Width() && 0 <= p.loc.y < m.Height() && p.maxVal == m.At(p.loc.x, p.loc.y)
  {
    MapPeak(m, m.Height())
  }

  /** `minMaxLoc` reports the first maximum in row-major order. */
  lemma MinMaxLocIsFirstMax(m: ScoreMap)
    requires 0 < m.Width() && 0 < m.Height()
    ensures var p := MinMaxLoc(m);
      && (forall y, x :: 0 <= y < m.Height() && 0 <= x < m.Width() ==> m.At(x, y) <= p.maxVal)
      && (forall y, x :: 0 <= y < m.Height() && 0 <= x < m.Width() && Before(x, y, p.loc) ==> m.At(x, y) < p.maxVal)
  {
    MapPeakIsFirstMax(m, m.Height());
  }

  /** `tpl` fits inside `scene` (the template may be as large as the scene). */
  predicate FitsWithin(tpl: Mat, scene: Mat) {
    tpl.Cols() <= scene.Cols() && tpl.Rows() <= scene.Rows()
  }

  /** `v` is the greatest correlation over all offsets of `tpl` in `scene`, and some offset attains it. */
  ghost predicate IsMaxCorr(cv: Cv, scene: Mat, tpl: Mat, v: real)
    requires FitsWithin(tpl, scene)
  {
    && (exists y, x :: 0 <= y <= scene.Rows() - tpl.Rows() && 0 <= x <= scene.Cols() - tpl.Cols()
          && cv.corr(scene, tpl, x, y) == v)
    && (forall y, x :: 0 <= y <= scene.Rows() - tpl.Rows() && 0 <= x <= scene.Cols() - tpl.Cols()
          ==> cv.corr(scene, tpl, x, y) <= v)
  }

  /** `matchTemplate` followed by `minMaxLoc`, for a template that fits inside the scene. */
  function MatchPeak(cv: Cv, scene: Mat, tpl: Mat): (p: Peak)
    requires FitsWithin(tpl, scene)
    ensures 0 <= p.loc.x <= scene.Cols() - tpl.Cols() && 0 <= p.loc.y <= scene.Rows() - tpl.Rows()
    ensures p.maxVal == cv.corr(scene, tpl, p.loc.x, p.loc.y)
    ensures IsMaxCorr(cv, scene, tpl, p.maxVal)
  {
    var m := Matched(cv, scene, tpl);
    var p := MinMaxLoc(m);
    MinMaxLocIsFirstMax(m);
    forall y, x | 0 <= y <= scene.Rows() - tpl.Rows() && 0 <= x <= scene.Cols() - tpl.Cols()
      ensures cv.corr(scene, tpl, x, y) <= p.maxVal
    {
      assert m.At(x, y) <= p.maxVal;
    }
    p
  }
}
