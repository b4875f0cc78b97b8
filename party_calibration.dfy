/**
 * `autoCalibrateParty`: locating the three party-selector buttons. At each of seven scales the
 * gray selector template is matched against the gray frame; three rounds then take the best cell
 * of the score map, keep it when it scores at least 0.25, and blank out (-1.0) a window around it
 * so the next round finds another button. The scale whose three picks have the greatest sum wins,
 * and its boxes are returned top to bottom.
 */
module PartyCalibration {
  import opened Wrappers
  import opened Numerics
  import opened Selection
  import opened Sorting
  import opened Vision
  import opened DataModels

  const PartyScales: seq<real> := [0.7, 1.0, 1.3, 1.6, 1.9, 2.2, 2.5]
  const PickThreshold: real := 0.25
  const PickRounds: nat := 3

  /** The window blanked around a pick at `loc`: one template size before it, two after, clipped to the map. */
  function MaskAround(m: ScoreMap, loc: Point, tw: int, th: int): (r: ScoreMap)
    ensures r.Width() == m.Width() && r.Height() == m.Height()
  {
    Masked(m, Max(0, loc.x - tw), Max(0, loc.y - th), Min(m.Width(), loc.x + tw * 2), Min(m.Height(), loc.y + th * 2))
  }

  /** Cell (x, y) lies in the window blanked around the pick `p`. */
  predicate InWindow(p: Peak, x: int, y: int, tw: int, th: int, w: int, h: int) {
    && Max(0, p.loc.x - tw) <= x < Min(w, p.loc.x + tw * 2)
    && Max(0, p.loc.y - th) <= y < Min(h, p.loc.y + th * 2)
  }

  /** Cell (x, y) lies in the window of one of the picks `ps`. */
  predicate Suppressed(ps: seq<Peak>, x: int, y: int, tw: int, th: int, w: int, h: int) {
    exists j :: 0 <= j < |ps| && InWindow(ps[j], x, y, tw, th, w, h)
  }

  /** A cell is suppressed by the picks plus one more exactly when the earlier picks or the new one cover it. */
  lemma SuppressedSnoc(ps: seq<Peak>, p: Peak, x: int, y: int, tw: int, th: int, w: int, h: int)
    ensures Suppressed(ps + [p], x, y, tw, th, w, h) <==> Suppressed(ps, x, y, tw, th, w, h) || InWindow(p, x, y, tw, th, w, h)
  {
    var qs := ps + [p];
    if Suppressed(ps, x, y, tw, th, w, h) {
      var j :| 0 <= j < |ps| && InWindow(ps[j], x, y, tw, th, w, h);
      assert qs[j] == ps[j];
    }
    if InWindow(p, x, y, tw, th, w, h) {
      assert qs[|ps|] == p;
    }
    if Suppressed(qs, x, y, tw, th, w, h) {
      var j :| 0 <= j < |qs| && InWindow(qs[j], x, y, tw, th, w, h);
      if j < |ps| {
        assert qs[j] == ps[j];
      }
    }
  }

  /** The score map and the picks after some rounds. */
  datatype Picks = Picks(scores: ScoreMap, peaks: seq<Peak>)

  /**
   * `n` rounds of `repeat(3)` on the map `m0`: a round whose best cell scores below 0.25 changes
   * nothing; otherwise the cell is picked and its window blanked.
   */
  function Rounds(m0: ScoreMap, tw: int, th: int, n: nat): (r: Picks)
    requires 0 < m0.Width() && 0 < m0.Height()
    ensures r.scores.Width() == m0.Width() && r.scores.Height() == m0.Height()
    ensures |r.peaks| <= n
    decreases n
  {
    if n == 0 then Picks(m0, [])
    else
      var st := Rounds(m0, tw, th, n - 1);
      var p := MinMaxLoc(st.scores);
      if p.maxVal < PickThreshold then st else Picks(MaskAround(st.scores, p.loc, tw, th), st.peaks + [p])
  }

  /** After the rounds, a cell reads -1.0 when some pick's window covers it and its original score otherwise. */
  lemma {:induction false} RoundsMap(m0: ScoreMap, tw: int, th: int, n: nat, x: int, y: int)
    requires 0 < m0.Width() && 0 < m0.Height()
    ensures var r := Rounds(m0, tw, th, n);
      r.scores.At(x, y) == if Suppressed(r.peaks, x, y, tw, th, m0.Width(), m0.Height()) then -1.0 else m0.At(x, y)
    decreases n
  {
    if n > 0 {
      RoundsMap(m0, tw, th, n - 1, x, y);
      var st := Rounds(m0, tw, th, n - 1);
      var p := MinMaxLoc(st.scores);
      if p.maxVal >= PickThreshold {
        var masked := MaskAround(st.scores, p.loc, tw, th);
        assert Rounds(m0, tw, th, n) == Picks(masked, st.peaks + [p]);
        assert masked.At(x, y) == if InWindow(p, x, y, tw, th, m0.Width(), m0.Height()) then -1.0 else st.scores.At(x, y);
        SuppressedSnoc(st.peaks, p, x, y, tw, th, m0.Width(), m0.Height());
      } else {
        assert Rounds(m0, tw, th, n) == st;
      }
    }
  }

  /** In `st.scores` exactly the cells covered by the windows of `st.peaks` read -1.0; the others read as in `m0`. */
  ghost predicate MaskedByPicks(m0: ScoreMap, st: Picks, tw: int, th: int) {
    && st.scores.Width() == m0.Width() && st.scores.Height() == m0.Height()
    && forall y, x ::
         st.scores.At(x, y) == if Suppressed(st.peaks, x, y, tw, th, m0.Width(), m0.Height()) then -1.0 else m0.At(x, y)
  }

  /** RoundsMap for every cell at once. */
  lemma RoundsMapAll(m0: ScoreMap, tw: int, th: int, n: nat)
    requires 0 < m0.Width() && 0 < m0.Height()
    ensures MaskedByPicks(m0, Rounds(m0, tw, th, n), tw, th)
  {
    var r := Rounds(m0, tw, th, n);
    forall y, x
      ensures r.scores.At(x, y) == if Suppressed(r.peaks, x, y, tw, th, m0.Width(), m0.Height()) then -1.0 else m0.At(x, y)
    {
      RoundsMap(m0, tw, th, n, x, y);
    }
  }

  /**
   * `p` is a pick made after the picks `earlier`: it scores at least 0.25, lies outside their
   * windows, reports the cell's original score, and is the first best cell (row-major) among the
   * cells those windows leave.
   */
  ghost predicate IsPickAfter(m0: ScoreMap, earlier: seq<Peak>, p: Peak, tw: int, th: int) {
    var w, h := m0.Width(), m0.Height();
    && p.maxVal >= PickThreshold
    && 0 <= p.loc.x < w && 0 <= p.loc.y < h
    && !Suppressed(earlier, p.loc.x, p.loc.y, tw, th, w, h)
    && p.maxVal == m0.At(p.loc.x, p.loc.y)
    && (forall y, x :: 0 <= y < h && 0 <= x < w && !Suppressed(earlier, x, y, tw, th, w, h) ==> m0.At(x, y) <= p.maxVal)
    && (forall y, x :: 0 <= y < h && 0 <= x < w && !Suppressed(earlier, x, y, tw, th, w, h) && Before(x, y, p.loc)
          ==> m0.At(x, y) < p.maxVal)
  }

  /**
   * The best cell of a map in which exactly the cells covered by the picks `st.peaks` read -1.0 is,
   * when it scores at least 0.25, a pick made after them.
   */
  lemma PickFromMasked(m0: ScoreMap, st: Picks, tw: int, th: int)
    requires 0 < m0.Width() && 0 < m0.Height()
    requires MaskedByPicks(m0, st, tw, th)
    requires MinMaxLoc(st.scores).maxVal >= PickThreshold
    ensures IsPickAfter(m0, st.peaks, MinMaxLoc(st.scores), tw, th)
  {
    var p := MinMaxLoc(st.scores);
    var w, h := m0.Width(), m0.Height();
    MinMaxLocIsFirstMax(st.scores);
    assert st.scores.At(p.loc.x, p.loc.y) == p.maxVal;
    forall y, x | 0 <= y < h && 0 <= x < w && !Suppressed(st.peaks, x, y, tw, th, w, h)
      ensures m0.At(x, y) <= p.maxVal && (Before(x, y, p.loc) ==> m0.At(x, y) < p.maxVal)
    {
      assert st.scores.At(x, y) == m0.At(x, y);
    }
  }

  /** The newest pick of the rounds, when the last round picked one. */
  lemma LastPick(m0: ScoreMap, tw: int, th: int, n: nat)
    requires 0 < m0.Width() && 0 < m0.Height() && 0 < n
    requires Rounds(m0, tw, th, n - 1).peaks != Rounds(m0, tw, th, n).peaks
    ensures var st := Rounds(m0, tw, th, n - 1);
      && Rounds(m0, tw, th, n).peaks == st.peaks + [MinMaxLoc(st.scores)]
      && IsPickAfter(m0, st.peaks, MinMaxLoc(st.scores), tw, th)
  {
    var st := Rounds(m0, tw, th, n - 1);
    var p := MinMaxLoc(st.scores);
    assert p.maxVal >= PickThreshold && Rounds(m0, tw, th, n) == Picks(MaskAround(st.scores, p.loc, tw, th), st.peaks + [p]);
    RoundsMapAll(m0, tw, th, n - 1);
    PickFromMasked(m0, st, tw, th);
  }

  /** Every pick of the rounds satisfies IsPickAfter with respect to the picks before it. */
  lemma {:induction false} RoundsPicks(m0: ScoreMap, tw: int, th: int, n: nat)
    requires 0 < m0.Width() && 0 < m0.Height()
    ensures var ps := Rounds(m0, tw, th, n).peaks; forall k :: 0 <= k < |ps| ==> IsPickAfter(m0, ps[..k], ps[k], tw, th)
    decreases n
  {
    if n > 0 {
      RoundsPicks(m0, tw, th, n - 1);
      var before := Rounds(m0, tw, th, n - 1).peaks;
      var ps := Rounds(m0, tw, th, n).peaks;
      if ps != before {
        LastPick(m0, tw, th, n);
        forall k | 0 <= k < |ps|
          ensures IsPickAfter(m0, ps[..k], ps[k], tw, th)
        {
          if k < |before| {
            assert ps[k] == before[k] && ps[..k] == before[..k];
          } else {
            assert ps[..k] == before;
          }
        }
      }
    }
  }

  /** RoundsPicks for one pick. */
  lemma RoundsPickAt(m0: ScoreMap, tw: int, th: int, n: nat, k: nat)
    requires 0 < m0.Width() && 0 < m0.Height() && k < |Rounds(m0, tw, th, n).peaks|
    ensures var ps := Rounds(m0, tw, th, n).peaks; IsPickAfter(m0, ps[..k], ps[k], tw, th)
  {
    RoundsPicks(m0, tw, th, n);
  }

  /** Each of `ps` is a pick after the ones before it, and no two are at the same cell. */
  ghost predicate ArePicks(m0: ScoreMap, ps: seq<Peak>, tw: int, th: int) {
    && (forall k :: 0 <= k < |ps| ==> IsPickAfter(m0, ps[..k], ps[k], tw, th))
    && (forall j, k :: 0 <= j < k < |ps| ==> ps[j].loc != ps[k].loc)
  }

  /** The rounds' picks, for a template of positive size. */
  lemma RoundsArePicks(m0: ScoreMap, tw: int, th: int, n: nat)
    requires 0 < m0.Width() && 0 < m0.Height() && tw >= 1 && th >= 1
    ensures ArePicks(m0, Rounds(m0, tw, th, n).peaks, tw, th)
  {
    RoundsPicks(m0, tw, th, n);
    RoundsDistinct(m0, tw, th, n);
  }

  /** With a template of positive size, the picks of the rounds are at pairwise different cells. */
  lemma RoundsDistinct(m0: ScoreMap, tw: int, th: int, n: nat)
    requires 0 < m0.Width() && 0 < m0.Height() && tw >= 1 && th >= 1
    ensures var ps := Rounds(m0, tw, th, n).peaks;
      forall j, k :: 0 <= j < k < |ps| ==> ps[j].loc != ps[k].loc
  {
    var ps := Rounds(m0, tw, th, n).peaks;
    forall j, k | 0 <= j < k < |ps|
      ensures ps[j].loc != ps[k].loc
    {
      var w, h := m0.Width(), m0.Height();
      RoundsPickAt(m0, tw, th, n, j);
      RoundsPickAt(m0, tw, th, n, k);
      assert ps[..k][j] == ps[j];
      assert InWindow(ps[j], ps[j].loc.x, ps[j].loc.y, tw, th, w, h);
    }
  }

  // ---------------------------------------------------------------------------------------
  // One scale

  /** The box of a pick: the template's centre as fractions of the frame, and the template's size. */
  function PickBox(p: Peak, tw: int, th: int, cols: nat, rows: nat): (b: BoxConfig)
    requires cols >= 1 && rows >= 1
  {
    BoxConfig((p.loc.x + Half(tw)) as real / cols as real, (p.loc.y + Half(th)) as real / rows as real, tw, th)
  }

  /** The boxes of the picks, in pick order. */
  function PickBoxes(ps: seq<Peak>, tw: int, th: int, cols: nat, rows: nat): (bs: seq<BoxConfig>)
    requires cols >= 1 && rows >= 1
    ensures |bs| == |ps|
    ensures forall k :: 0 <= k < |ps| ==> bs[k] == PickBox(ps[k], tw, th, cols, rows)
    decreases |ps|
  {
    if ps == [] then []
    else PickBoxes(ps[..|ps| - 1], tw, th, cols, rows) + [PickBox(ps[|ps| - 1], tw, th, cols, rows)]
  }

  /** The sum of the picks' scores. */
  function SumScores(ps: seq<Peak>): real
    decreases |ps|
  {
    if ps == [] then 0.0 else SumScores(ps[..|ps| - 1]) + ps[|ps| - 1].maxVal
  }

  /** Picks of at least 0.25 each sum to at least 0.25 per pick. */
  lemma {:induction false} SumScoresAtLeast(ps: seq<Peak>)
    requires forall k :: 0 <= k < |ps| ==> ps[k].maxVal >= PickThreshold
    ensures SumScores(ps) >= PickThreshold * |ps| as real
    decreases |ps|
  {
    if ps != [] {
      SumScoresAtLeast(ps[..|ps| - 1]);
    }
  }

  /** The template resized to scale `s`. */
  function ScaledTemplate(cv: Cv, grayTemplate: Mat, s: real): Mat {
    Resize(cv, grayTemplate, s)
  }

  /**
   * `matchTemplate` fails: the template is empty, or it is larger than the frame in one direction
   * and smaller in the other.
   */
  predicate MatchThrows(scene: Mat, tpl: Mat) {
    tpl.Cols() == 0 || tpl.Rows() == 0 || !(FitsWithin(tpl, scene) || FitsWithin(scene, tpl))
  }

  /** The score map of `matchTemplate`, which swaps the roles when the template is the larger image. */
  function ScoreMapOf(cv: Cv, scene: Mat, tpl: Mat): (m: ScoreMap)
    requires scene.Cols() >= 1 && scene.Rows() >= 1 && !MatchThrows(scene, tpl)
    ensures 0 < m.Width() && 0 < m.Height()
  {
    if FitsWithin(tpl, scene) then Matched(cv, scene, tpl) else Matched(cv, tpl, scene)
  }

  /** The picks of one scale, as boxes, and the sum of their scores. */
  function ScalePicks(cv: Cv, grayScene: Mat, grayTemplate: Mat, s: real): (r: Outcome<(seq<BoxConfig>, real)>)
    requires grayScene.Cols() >= 1 && grayScene.Rows() >= 1
    ensures r.Threw? <==> MatchThrows(grayScene, ScaledTemplate(cv, grayTemplate, s))
    ensures r.Done? ==> |r.value.0| <= PickRounds
  {
    var t := ScaledTemplate(cv, grayTemplate, s);
    if MatchThrows(grayScene, t) then Threw
    else
      var ps := Rounds(ScoreMapOf(cv, grayScene, t), t.Cols(), t.Rows(), PickRounds).peaks;
      Done((PickBoxes(ps, t.Cols(), t.Rows(), grayScene.Cols(), grayScene.Rows()), SumScores(ps)))
  }

  /** The result of a search: the boxes, top to bottom, and the scale. */
  type Choice = (seq<BoxConfig>, real)

  function CenterY(b: BoxConfig): real {
    b.centerY
  }

  /** One scale as a candidate of the selection: scored by its sum when it has three picks, else skipped. */
  function ScaleAttempt(cv: Cv, grayScene: Mat, grayTemplate: Mat, s: real): (r: Outcome<Candidate<Choice>>)
    requires grayScene.Cols() >= 1 && grayScene.Rows() >= 1
    ensures r.Threw? <==> ScalePicks(cv, grayScene, grayTemplate, s).Threw?
  {
    match ScalePicks(cv, grayScene, grayTemplate, s)
    case Threw => Threw
    case Done((configs, sum)) =>
      if |configs| == PickRounds then Done(Scored(sum, (SortBy(configs, CenterY), s))) else Done(Skipped)
  }

  /** The picks of one scale, when its match succeeds. */
  function ScalePeaks(cv: Cv, grayScene: Mat, grayTemplate: Mat, s: real): seq<Peak>
    requires grayScene.Cols() >= 1 && grayScene.Rows() >= 1
    requires !MatchThrows(grayScene, ScaledTemplate(cv, grayTemplate, s))
  {
    var t := ScaledTemplate(cv, grayTemplate, s);
    Rounds(ScoreMapOf(cv, grayScene, t), t.Cols(), t.Rows(), PickRounds).peaks
  }

  /** A scored scale holds the sorted boxes of its three picks, its scale, and the sum of the picks' scores. */
  lemma ScaleAttemptParts(cv: Cv, grayScene: Mat, grayTemplate: Mat, s: real)
    requires grayScene.Cols() >= 1 && grayScene.Rows() >= 1
    requires ScaleAttempt(cv, grayScene, grayTemplate, s).Done? && ScaleAttempt(cv, grayScene, grayTemplate, s).value.Scored?
    ensures !MatchThrows(grayScene, ScaledTemplate(cv, grayTemplate, s))
    ensures var c := ScaleAttempt(cv, grayScene, grayTemplate, s).value;
      var t := ScaledTemplate(cv, grayTemplate, s);
      var ps := ScalePeaks(cv, grayScene, grayTemplate, s);
      && |ps| == PickRounds
      && c.item == (SortBy(PickBoxes(ps, t.Cols(), t.Rows(), grayScene.Cols(), grayScene.Rows()), CenterY), s)
      && c.score == SumScores(ps)
  {
  }

  /** A scored scale holds its scale and its three picks' boxes, ordered top to bottom. */
  lemma ScaleAttemptBoxes(cv: Cv, grayScene: Mat, grayTemplate: Mat, s: real)
    requires grayScene.Cols() >= 1 && grayScene.Rows() >= 1
    requires ScaleAttempt(cv, grayScene, grayTemplate, s).Done? && ScaleAttempt(cv, grayScene, grayTemplate, s).value.Scored?
    ensures !MatchThrows(grayScene, ScaledTemplate(cv, grayTemplate, s))
    ensures var c := ScaleAttempt(cv, grayScene, grayTemplate, s).value;
      var t := ScaledTemplate(cv, grayTemplate, s);
      var bs := PickBoxes(ScalePeaks(cv, grayScene, grayTemplate, s), t.Cols(), t.Rows(), grayScene.Cols(), grayScene.Rows());
      && c.item.1 == s
      && |c.item.0| == PickRounds
      && SortedBy(c.item.0, CenterY)
      && multiset(c.item.0) == multiset(bs)
      && (forall v :: WithKey(c.item.0, CenterY, v) == WithKey(bs, CenterY, v))
  {
    ScaleAttemptParts(cv, grayScene, grayTemplate, s);
    var t := ScaledTemplate(cv, grayTemplate, s);
    var bs := PickBoxes(ScalePeaks(cv, grayScene, grayTemplate, s), t.Cols(), t.Rows(), grayScene.Cols(), grayScene.Rows());
    SortByIsSorted(bs, CenterY);
    SortByLength(bs, CenterY);
  }

  /** Every pick of the rounds scores at least 0.25. */
  lemma {:induction false} RoundsPickScores(m0: ScoreMap, tw: int, th: int, n: nat)
    requires 0 < m0.Width() && 0 < m0.Height()
    ensures forall k :: 0 <= k < |Rounds(m0, tw, th, n).peaks| ==> Rounds(m0, tw, th, n).peaks[k].maxVal >= PickThreshold
    decreases n
  {
    if n > 0 {
      RoundsPickScores(m0, tw, th, n - 1);
      var st := Rounds(m0, tw, th, n - 1);
      var p := MinMaxLoc(st.scores);
      var ps := Rounds(m0, tw, th, n).peaks;
      assert ps == if p.maxVal < PickThreshold then st.peaks else st.peaks + [p];
      forall k | 0 <= k < |ps|
        ensures ps[k].maxVal >= PickThreshold
      {
        if k < |st.peaks| {
          assert ps[k] == st.peaks[k];
        }
      }
    }
  }

  /** A scored scale's score is the sum of its three picks, hence at least 0.75. */
  lemma ScaleAttemptScore(cv: Cv, grayScene: Mat, grayTemplate: Mat, s: real)
    requires grayScene.Cols() >= 1 && grayScene.Rows() >= 1
    requires ScaleAttempt(cv, grayScene, grayTemplate, s).Done? && ScaleAttempt(cv, grayScene, grayTemplate, s).value.Scored?
    ensures !MatchThrows(grayScene, ScaledTemplate(cv, grayTemplate, s))
    ensures var c := ScaleAttempt(cv, grayScene, grayTemplate, s).value;
      c.score == SumScores(ScalePeaks(cv, grayScene, grayTemplate, s)) >= PickThreshold * 3.0
  {
    ScaleAttemptParts(cv, grayScene, grayTemplate, s);
    var t := ScaledTemplate(cv, grayTemplate, s);
    RoundsPickScores(ScoreMapOf(cv, grayScene, t), t.Cols(), t.Rows(), PickRounds);
    SumScoresAtLeast(ScalePeaks(cv, grayScene, grayTemplate, s));
  }

  /** The picks of a scale whose match succeeds satisfy IsPickAfter, at pairwise different cells. */
  lemma ScalePeaksArePicks(cv: Cv, grayScene: Mat, grayTemplate: Mat, s: real)
    requires grayScene.Cols() >= 1 && grayScene.Rows() >= 1
    requires !MatchThrows(grayScene, ScaledTemplate(cv, grayTemplate, s))
    ensures var t := ScaledTemplate(cv, grayTemplate, s);
      ArePicks(ScoreMapOf(cv, grayScene, t), ScalePeaks(cv, grayScene, grayTemplate, s), t.Cols(), t.Rows())
  {
    var t := ScaledTemplate(cv, grayTemplate, s);
    RoundsArePicks(ScoreMapOf(cv, grayScene, t), t.Cols(), t.Rows(), PickRounds);
  }

  // ---------------------------------------------------------------------------------------
  // All scales

  /** The attempts at every scale, in scale order. */
  function Attempts(cv: Cv, grayScene: Mat, grayTemplate: Mat): (as_: seq<Outcome<Candidate<Choice>>>)
    requires grayScene.Cols() >= 1 && grayScene.Rows() >= 1
    ensures |as_| == |PartyScales|
    ensures forall i :: 0 <= i < |as_| ==> as_[i] == ScaleAttempt(cv, grayScene, grayTemplate, PartyScales[i])
  {
    seq(|PartyScales|, i requires 0 <= i < |PartyScales| => ScaleAttempt(cv, grayScene, grayTemplate, PartyScales[i]))
  }

  /**
   * `autoCalibrateParty` as a function: None without the selector template; otherwise the first
   * scale, in scale order, whose three picks have the greatest sum (strictly above -1.0), with
   * its boxes; None when no scale has three picks.
   */
  function AutoCalibratePartyResult(cv: Cv, scene: Mat, template: Option<Mat>): (r: Outcome<Option<Choice>>)
    requires scene.Cols() >= 1 && scene.Rows() >= 1
  {
    match template
    case None => Done(None)
    case Some(tpl) =>
      match Collect(Attempts(cv, Gray(scene), Gray(tpl)))
      case Threw => Threw
      case Done(cs) =>
        var b := Scan(cs, NoBest);
        ScanOutcome(cs, NoBest);
        if b.index < 0 then Done(None) else Done(Some(cs[b.index].item))
  }

  /** Every scored scale beats the starting score -1.0. */
  lemma AttemptsBeatStart(cv: Cv, grayScene: Mat, grayTemplate: Mat)
    requires grayScene.Cols() >= 1 && grayScene.Rows() >= 1
    ensures var as_ := Attempts(cv, grayScene, grayTemplate);
      forall i :: 0 <= i < |as_| && as_[i].Done? && as_[i].value.Scored? ==> as_[i].value.score > NoBest.score
  {
    var as_ := Attempts(cv, grayScene, grayTemplate);
    forall i | 0 <= i < |as_| && as_[i].Done? && as_[i].value.Scored?
      ensures as_[i].value.score > NoBest.score
    {
      ScaleAttemptScore(cv, grayScene, grayTemplate, PartyScales[i]);
    }
  }

  /**
   * What the calibration returns: nothing without a template; an exception exactly when some scale's
   * match fails; None exactly when no scale has three picks; otherwise the boxes and scale of the
   * first scale whose sum is the greatest among the scales with three picks.
   */
  lemma AutoCalibratePartyOutcome(cv: Cv, scene: Mat, template: Option<Mat>)
    requires scene.Cols() >= 1 && scene.Rows() >= 1
    ensures var r := AutoCalibratePartyResult(cv, scene, template);
      && (template.None? ==> r == Done(None))
      && (template.Some? ==>
            var as_ := Attempts(cv, Gray(scene), Gray(template.value));
            && (r.Threw? <==> exists i :: 0 <= i < |as_| && as_[i].Threw?)
            && (r == Done(None) <==> forall i :: 0 <= i < |as_| ==> as_[i] == Done(Skipped))
            && (r.Done? && r.value.Some? ==>
                  exists i :: 0 <= i < |as_| && FirstMaxAt(Collect(as_).value, i) && as_[i].value.item == r.value.value))
  {
    if template.Some? {
      var g, gt := Gray(scene), Gray(template.value);
      var as_ := Attempts(cv, g, gt);
      var pc := Collect(as_);
      if pc.Done? {
        var cs := pc.value;
        ScanOutcome(cs, NoBest);
        AttemptsBeatStart(cv, g, gt);
        var b := Scan(cs, NoBest);
        if b.index >= 0 {
          assert FirstMaxAt(cs, b.index) && as_[b.index] == Done(cs[b.index]);
        } else {
          assert forall i :: 0 <= i < |cs| ==> cs[i] == Skipped;
        }
      }
    }
  }

  /** A found party calibration holds exactly three boxes, ordered top to bottom. */
  lemma AutoCalibratePartyBoxes(cv: Cv, scene: Mat, tpl: Mat, c: Choice)
    requires scene.Cols() >= 1 && scene.Rows() >= 1
    requires AutoCalibratePartyResult(cv, scene, Some(tpl)) == Done(Some(c))
    ensures |c.0| == PickRounds && SortedBy(c.0, CenterY)
  {
    var g, gt := Gray(scene), Gray(tpl);
    var as_ := Attempts(cv, g, gt);
    var cs := Collect(as_).value;
    var b := Scan(cs, NoBest);
    ScanOutcome(cs, NoBest);
    assert as_[b.index] == Done(cs[b.index]) && c == cs[b.index].item;
    ScaleAttemptBoxes(cv, g, gt, PartyScales[b.index]);
  }

  // ---------------------------------------------------------------------------------------
  // The loops

  /** One more round, from the state after `n` rounds. */
  lemma RoundsStep(m0: ScoreMap, tw: int, th: int, n: nat, scores: ScoreMap, peaks: seq<Peak>)
    requires 0 < m0.Width() && 0 < m0.Height()
    requires Rounds(m0, tw, th, n) == Picks(scores, peaks)
    ensures 0 < scores.Width() && 0 < scores.Height()
    ensures Rounds(m0, tw, th, n + 1) ==
      if MinMaxLoc(scores).maxVal < PickThreshold then Picks(scores, peaks)
      else Picks(MaskAround(scores, MinMaxLoc(scores).loc, tw, th), peaks + [MinMaxLoc(scores)])
  {
  }

  /** One more pick adds its box and its score. */
  lemma PickSnoc(ps: seq<Peak>, p: Peak, tw: int, th: int, cols: nat, rows: nat)
    requires cols >= 1 && rows >= 1
    ensures PickBoxes(ps + [p], tw, th, cols, rows) == PickBoxes(ps, tw, th, cols, rows) + [PickBox(p, tw, th, cols, rows)]
    ensures SumScores(ps + [p]) == SumScores(ps) + p.maxVal
  {
    assert (ps + [p])[..|ps|] == ps;
  }

  /** The body of the scale loop: the match at scale `s` and the three rounds of picks. */
  method MatchAtScale(cv: Cv, grayScene: Mat, grayTemplate: Mat, s: real) returns (r: Outcome<(seq<BoxConfig>, real)>)
    requires grayScene.Cols() >= 1 && grayScene.Rows() >= 1
    ensures r == ScalePicks(cv, grayScene, grayTemplate, s)
  {
    var scaledTpl := ScaledTemplate(cv, grayTemplate, s);
    if MatchThrows(grayScene, scaledTpl) {
      return Threw;
    }
    var tw, th := scaledTpl.Cols(), scaledTpl.Rows();
    ghost var m0 := ScoreMapOf(cv, grayScene, scaledTpl);
    var result := ScoreMapOf(cv, grayScene, scaledTpl);
    var currentConfigs: seq<BoxConfig> := [];
    var sumScore := 0.0;
    ghost var peaks: seq<Peak> := [];
    for k := 0 to PickRounds
      invariant Rounds(m0, tw, th, k) == Picks(result, peaks)
      invariant currentConfigs == PickBoxes(peaks, tw, th, grayScene.Cols(), grayScene.Rows())
      invariant sumScore == SumScores(peaks)
    {
      RoundsStep(m0, tw, th, k, result, peaks);
      var mm := MinMaxLoc(result);
      if mm.maxVal >= PickThreshold {
        PickSnoc(peaks, mm, tw, th, grayScene.Cols(), grayScene.Rows());
        sumScore := sumScore + mm.maxVal;
        currentConfigs := currentConfigs + [PickBox(mm, tw, th, grayScene.Cols(), grayScene.Rows())];
        result := MaskAround(result, mm.loc, tw, th);
        peaks := peaks + [mm];
      }
    }
    return Done((currentConfigs, sumScore));
  }

  /** The loop state of `autoCalibrateParty` after the scales `seen`; the configs are kept sorted. */
  ghost predicate PartyState(seen: seq<Candidate<Choice>>, score: real, configs: Option<seq<BoxConfig>>, scale: real, index: int) {
    && RunningBest(seen, NoBest, Best(score, index), (configs.GetOr([]), scale))
    && (configs.Some? <==> index >= 0)
  }

  /** One iteration of the scale loop: the picks at `PartyScales[i]` against the best so far. */
  method VisitPartyScale(cv: Cv, grayScene: Mat, grayTemplate: Mat, i: nat, ghost done: seq<Candidate<Choice>>,
                         score: real, configs: Option<seq<BoxConfig>>, scale: real, ghost index: int)
    returns (threw: bool, bestScore: real, bestConfigs: Option<seq<BoxConfig>>, bestScale: real, ghost bestIndex: int)
    requires grayScene.Cols() >= 1 && grayScene.Rows() >= 1
    requires i < |PartyScales| && |done| == i
    requires PartyState(done, score, configs, scale, index)
    ensures threw <==> ScaleAttempt(cv, grayScene, grayTemplate, PartyScales[i]).Threw?
    ensures !threw ==>
      PartyState(done + [ScaleAttempt(cv, grayScene, grayTemplate, PartyScales[i]).value],
                 bestScore, bestConfigs, bestScale, bestIndex)
  {
    bestScore, bestConfigs, bestScale, bestIndex := score, configs, scale, index;
    var s := PartyScales[i];
    var picks := MatchAtScale(cv, grayScene, grayTemplate, s);
    if picks.Threw? {
      return true, bestScore, bestConfigs, bestScale, bestIndex;
    }
    threw := false;
    var (currentConfigs, sumScore) := picks.value;
    ghost var c := ScaleAttempt(cv, grayScene, grayTemplate, s).value;
    RunningBestStep(done, c, NoBest, Best(score, index), (configs.GetOr([]), scale));
    if |currentConfigs| == PickRounds && sumScore > bestScore {
      bestScore := sumScore;
      bestConfigs := Some(SortBy(currentConfigs, CenterY));
      bestScale := s;
      bestIndex := i;
    }
  }

  /** A scale whose match throws makes the whole calibration throw. */
  lemma PartyThrows(cv: Cv, scene: Mat, tpl: Mat, i: nat)
    requires scene.Cols() >= 1 && scene.Rows() >= 1
    requires i < |PartyScales| && ScaleAttempt(cv, Gray(scene), Gray(tpl), PartyScales[i]).Threw?
    ensures AutoCalibratePartyResult(cv, scene, Some(tpl)) == Threw
  {
    assert Attempts(cv, Gray(scene), Gray(tpl))[i].Threw?;
  }

  /** The loop's final state is the calibration's result. */
  lemma PartyResultFromState(cv: Cv, scene: Mat, tpl: Mat, done: seq<Candidate<Choice>>,
                             score: real, configs: Option<seq<BoxConfig>>, scale: real, index: int)
    requires scene.Cols() >= 1 && scene.Rows() >= 1
    requires Collect(Attempts(cv, Gray(scene), Gray(tpl))[..|PartyScales|]) == Done(done)
    requires PartyState(done, score, configs, scale, index)
    ensures AutoCalibratePartyResult(cv, scene, Some(tpl)) ==
      if configs.None? then Done(None) else Done(Some((configs.value, scale)))
  {
    var as_ := Attempts(cv, Gray(scene), Gray(tpl));
    assert as_[..|PartyScales|] == as_;
    assert Scan(done, NoBest) == Best(score, index);
    if index >= 0 {
      assert done[index] == Scored(score, (configs.value, scale));
    }
  }

  /**
   * `autoCalibrateParty`: None without the selector template; otherwise the scales in order, a scale
   * with three picks replacing the best so far when its sum is strictly greater.
   */
  method AutoCalibrateParty(cv: Cv, scene: Mat, template: Option<Mat>) returns (r: Outcome<Option<Choice>>)
    requires scene.Cols() >= 1 && scene.Rows() >= 1
    ensures r == AutoCalibratePartyResult(cv, scene, template)
  {
    if template.None? {
      return Done(None);
    }
    var grayScene, grayTemplate := Gray(scene), Gray(template.value);
    ghost var as_ := Attempts(cv, grayScene, grayTemplate);
    var bestOverallScore := NoBest.score;
    var bestConfigs: Option<seq<BoxConfig>> := None;
    var bestScale := 1.0;
    ghost var bestIndex := NoBest.index;
    ghost var done: seq<Candidate<Choice>> := [];
    RunningBestStart(NoBest, (bestConfigs.GetOr([]), bestScale));
    for i := 0 to |PartyScales|
      invariant Collect(as_[..i]) == Done(done)
      invariant PartyState(done, bestOverallScore, bestConfigs, bestScale, bestIndex)
    {
      var threw: bool;
      threw, bestOverallScore, bestConfigs, bestScale, bestIndex :=
        VisitPartyScale(cv, grayScene, grayTemplate, i, done, bestOverallScore, bestConfigs, bestScale, bestIndex);
      if threw {
        PartyThrows(cv, scene, template.value, i);
        return Threw;
      }
      CollectNext(as_, i, done);
      done := done + [as_[i].value];
    }
    PartyResultFromState(cv, scene, template.value, done, bestOverallScore, bestConfigs, bestScale, bestIndex);
    if bestConfigs.None? {
      return Done(None);
    }
    return Done(Some((bestConfigs.value, bestScale)));
  }
}
