/**
 * Cutting a configured box out of a frame (`getRawROI`) and scoring a template inside it
 * (`performColorMatch`), from `BattleAnalyzer.kt`.
 */
module Crop {
  import opened Wrappers
  import opened Numerics
  import opened Vision
  import opened DataModels

  /** What `getRawROI` does: `coerceIn` throws, the crop is empty (null), or a crop is returned. */
  datatype CropResult = CropThrows | NoCrop | Cropped(m: Mat)

  /** Left (or top) edge of a box of size `size` centred at `frac` of `extent`, before clamping. */
  function CentredEdge(extent: nat, frac: real, size: int): int {
    TruncToInt(extent as real * frac) - Half(size)
  }

  /**
   * `getRawROI`: the configured box, at its configured size, clamped so that it lies inside the
   * frame. A box larger than the frame makes `coerceIn` throw; a box with no area gives no crop.
   */
  function GetRawROI(frame: Mat, config: BoxConfig): (r: CropResult)
    ensures r.CropThrows? <==> config.width > frame.Cols() || config.height > frame.Rows()
    ensures r.NoCrop? <==> !r.CropThrows? && (config.width <= 0 || config.height <= 0)
    ensures r.Cropped? ==>
      && r.m.Region? && r.m.of == frame
      && r.m.cols == config.width && r.m.rows == config.height
      && 0 <= r.m.left && r.m.left + r.m.cols <= frame.Cols()
      && 0 <= r.m.top && r.m.top + r.m.rows <= frame.Rows()
    ensures r.Cropped? ==>
      var cx := CentredEdge(frame.Cols(), config.centerX, config.width);
      var cy := CentredEdge(frame.Rows(), config.centerY, config.height);
      && (0 <= cx <= frame.Cols() - config.width ==> r.m.left == cx)
      && (cx < 0 ==> r.m.left == 0)
      && (cx > frame.Cols() - config.width ==> r.m.left == frame.Cols() - config.width)
      && (0 <= cy <= frame.Rows() - config.height ==> r.m.top == cy)
      && (cy < 0 ==> r.m.top == 0)
      && (cy > frame.Rows() - config.height ==> r.m.top == frame.Rows() - config.height)
  {
    var cols, rows := frame.Cols(), frame.Rows();
    var tw, th := config.width, config.height;
    if cols - tw < 0 then CropThrows
    else
      var left := CoerceIn(CentredEdge(cols, config.centerX, tw), 0, cols - tw);
      if rows - th < 0 then CropThrows
      else
        var top := CoerceIn(CentredEdge(rows, config.centerY, th), 0, rows - th);
        var safeW := if left + tw > cols then cols - left else tw;
        var safeH := if top + th > rows then rows - top else th;
        if safeW <= 0 || safeH <= 0 then NoCrop
        else Cropped(Region(frame, left, top, safeW, safeH))
  }

  /**
   * `performColorMatch`: the best correlation of the template, resized by `uiScale`, inside the
   * box's crop; 0.0 when the template is missing, the crop is empty, or the template does not fit.
   */
  function PerformColorMatch(cv: Cv, frame: Mat, config: BoxConfig, template: Option<Mat>, uiScale: real)
    : (r: Outcome<real>)
    ensures template.None? ==> r == Done(0.0)
    ensures r.Threw? <==> template.Some? && GetRawROI(frame, config).CropThrows?
    ensures template.Some? && GetRawROI(frame, config).NoCrop? ==> r == Done(0.0)
    ensures template.Some? && GetRawROI(frame, config).Cropped? ==>
      var roi := GetRawROI(frame, config).m;
      var tpl := Resize(cv, template.value, uiScale);
      && r.Done?
      && (FitsWithin(tpl, roi) ==> IsMaxCorr(cv, roi, tpl, r.value))
      && (!FitsWithin(tpl, roi) ==> r.value == 0.0)
  {
    if template.None? then Done(0.0)
    else
      match GetRawROI(frame, config)
      case CropThrows => Threw
      case NoCrop => Done(0.0)
      case Cropped(roi) =>
        var tpl := Resize(cv, template.value, uiScale);
        if tpl.Cols() <= roi.Cols() && tpl.Rows() <= roi.Rows() then Done(MatchPeak(cv, roi, tpl).maxVal)
        else Done(0.0)
  }
}
