/**
 * The template searches of `BattleAnalyzer.kt`: the multi-scale search for a UI element
 * (`findTemplateWithScale`), the local search for a monster icon around an estimated centre
 * (`findBestMonsterStrict`), and the choice of the best monster for a slot crop
 * (`findBestMonsterMatch`). Each one walks its candidates in a fixed order and keeps a
 * candidate only when its score is strictly greater than the best so far, so each is
 * specified by `Selection.Scan` over its candidate list.
 */
module Searches {
  import opened Wrappers
  import opened Selection
  import opened Numerics
  import opened Vision
  import opened DataModels

  /** A scored placement: where the peak is, the size of the resized template, and its scale. */
  datatype Hit = Hit(loc: Point, cols: nat, rows: nat, scale: real)

  /** `findTemplateWithScale`'s result: the found box, its score and the winning scale. */
  datatype ScanResult = ScanResult(config: BoxConfig, score: real, scale: real)

  /** `findBestMonsterMatch`'s result. */
  datatype MatchResult = MatchResult(name: string, score: real)

  // ---------------------------------------------------------------------------------------
  // findTemplateWithScale

  const TemplateScales: seq<real> := [0.5, 0.7, 0.9, 1.0, 1.1, 1.3, 1.5, 1.7, 1.9, 2.1, 2.3, 2.5]

  /** The score a template search must beat to report a box. */
  const ScanThreshold: real := 0.4

  /** The searched rows [start, end): the fractions `top` and `bottom` of the height, clamped. */
  function Band(rows: nat, top: real, bottom: real): (b: (int, int))
    requires rows >= 1
    ensures 0 <= b.0 < b.1 <= rows
    ensures var t := TruncToInt(rows as real * top); 0 <= t < rows ==> b.0 == t
    ensures var e := TruncToInt(rows as real * bottom); b.0 < e <= rows ==> b.1 == e
  {
    var startY := CoerceIn(TruncToInt(rows as real * top), 0, rows - 1);
    (startY, CoerceIn(TruncToInt(rows as real * bottom), startY + 1, rows))
  }

  /** The searched image: the whole width of the (optionally grey) scene, restricted to the band. */
  function BandRegion(scene: Mat, useGray: bool, top: real, bottom: real): (roi: Mat)
    requires scene.Rows() >= 1
    ensures roi.Cols() == scene.Cols() && 1 <= roi.Rows() <= scene.Rows()
  {
    var work := if useGray then Gray(scene) else scene;
    var b := Band(work.Rows(), top, bottom);
    Region(work, 0, b.0, work.Cols(), b.1 - b.0)
  }

  /** The template at scale `s`, converted to grey when the search runs on the grey scene. */
  function WorkTemplate(cv: Cv, tpl: Mat, useGray: bool, s: real): (w: Mat)
    ensures w.Cols() == Resize(cv, tpl, s).Cols() && w.Rows() == Resize(cv, tpl, s).Rows()
  {
    var t := Resize(cv, tpl, s);
    if useGray then Gray(t) else t
  }

  /** One scale of the search: scored only when the resized template is strictly smaller than the band. */
  function ScaleCandidate(cv: Cv, roi: Mat, tpl: Mat, useGray: bool, s: real): (c: Candidate<Hit>)
    ensures var t := Resize(cv, tpl, s);
      c.Scored? <==> t.Cols() < roi.Cols() && t.Rows() < roi.Rows()
    ensures c.Scored? ==>
      var t := Resize(cv, tpl, s);
      c.item.scale == s && c.item.cols == t.Cols() && c.item.rows == t.Rows()
  {
    var w := WorkTemplate(cv, tpl, useGray, s);
    if w.Cols() < roi.Cols() && w.Rows() < roi.Rows() then
      var p := MatchPeak(cv, roi, w);
      Scored(p.maxVal, Hit(p.loc, w.Cols(), w.Rows(), s))
    else Skipped
  }

  /** The candidates of the scales `scales`, in order. */
  function ScaleCandidates(cv: Cv, roi: Mat, tpl: Mat, useGray: bool, scales: seq<real>): (cs: seq<Candidate<Hit>>)
    ensures |cs| == |scales|
    decreases |scales|
  {
    if scales == [] then []
    else ScaleCandidates(cv, roi, tpl, useGray, scales[..|scales| - 1]) + [ScaleCandidate(cv, roi, tpl, useGray, scales[|scales| - 1])]
  }

  lemma ScaleCandidatesStep(cv: Cv, roi: Mat, tpl: Mat, useGray: bool, scales: seq<real>, i: nat)
    requires i < |scales|
    ensures ScaleCandidates(cv, roi, tpl, useGray, scales[..i + 1])
         == ScaleCandidates(cv, roi, tpl, useGray, scales[..i]) + [ScaleCandidate(cv, roi, tpl, useGray, scales[i])]
  {
    assert scales[..i + 1][..i] == scales[..i];
  }

  lemma {:induction false} ScaleCandidatesAt(cv: Cv, roi: Mat, tpl: Mat, useGray: bool, scales: seq<real>, i: nat)
    requires i < |scales|
    ensures ScaleCandidates(cv, roi, tpl, useGray, scales)[i] == ScaleCandidate(cv, roi, tpl, useGray, scales[i])
    decreases |scales|
  {
    if i < |scales| - 1 {
      ScaleCandidatesAt(cv, roi, tpl, useGray, scales[..|scales| - 1], i);
    }
  }

  /** A template dimension at scale `s`, as `(n * s).toInt()` computes it. */
  function ScaledSize(n: nat, s: real): int {
    TruncToInt(n as real * s)
  }

  /** The reported box: the template's size at the winning scale, centred on the peak, in frame fractions. */
  function ScaleConfig(scene: Mat, tpl: Mat, startY: int, loc: Point, scale: real): (c: BoxConfig)
    requires scene.Cols() >= 1 && scene.Rows() >= 1
    ensures c.width == ScaledSize(tpl.Cols(), scale) && c.height == ScaledSize(tpl.Rows(), scale)
    ensures c.centerX == (loc.x + Half(c.width)) as real / scene.Cols() as real
    ensures c.centerY == (loc.y + startY + Half(c.height)) as real / scene.Rows() as real
  {
    var tw, th := ScaledSize(tpl.Cols(), scale), ScaledSize(tpl.Rows(), scale);
    BoxConfig((loc.x + Half(tw)) as real / scene.Cols() as real,
              (loc.y + startY + Half(th)) as real / scene.Rows() as real, tw, th)
  }

  /** The whole search, as a function: the first best scale, reported when it beats 0.4. */
  function ScaleSearch(cv: Cv, scene: Mat, template: Option<Mat>, useGray: bool, top: real, bottom: real)
    : Option<ScanResult>
    requires scene.Rows() >= 1
  {
    if template.None? then None
    else
      var roi := BandRegion(scene, useGray, top, bottom);
      var cs := ScaleCandidates(cv, roi, template.value, useGray, TemplateScales);
      var b := Scan(cs, NoBest);
      ScanOutcome(cs, NoBest);
      if b.score > ScanThreshold then
        ScaleCandidatesAt(cv, roi, template.value, useGray, TemplateScales, b.index);
        var h := cs[b.index].item;
        Some(ScanResult(ScaleConfig(scene, template.value, Band(scene.Rows(), top, bottom).0, h.loc, h.scale),
                        b.score, h.scale))
      else None
  }

  /**
   * The search reports a box exactly when some fitting scale scores above 0.4, and then it reports
   * the FIRST scale reaching the greatest score, with that score.
   */
  lemma ScaleSearchFindsFirstBest(cv: Cv, scene: Mat, tpl: Mat, useGray: bool, top: real, bottom: real)
    requires scene.Rows() >= 1
    ensures
      var r := ScaleSearch(cv, scene, Some(tpl), useGray, top, bottom);
      var cs := ScaleCandidates(cv, BandRegion(scene, useGray, top, bottom), tpl, useGray, TemplateScales);
      && (r.Some? <==> exists j :: 0 <= j < |cs| && cs[j].Scored? && cs[j].score > ScanThreshold)
      && (r.Some? ==> exists j :: && FirstMaxAt(cs, j)
                                 && r.value.score == cs[j].score
                                 && r.value.scale == TemplateScales[j])
  {
    var r := ScaleSearch(cv, scene, Some(tpl), useGray, top, bottom);
    var roi := BandRegion(scene, useGray, top, bottom);
    var cs := ScaleCandidates(cv, roi, tpl, useGray, TemplateScales);
    var b := Scan(cs, NoBest);
    ScanOutcome(cs, NoBest);
    assert r.Some? <==> b.score > ScanThreshold;
    if b.score > ScanThreshold {
      var j := b.index;
      ScaleCandidatesAt(cv, roi, tpl, useGray, TemplateScales, j);
      assert FirstMaxAt(cs, j) && r.value.score == cs[j].score && r.value.scale == TemplateScales[j];
    } else {
      forall j | 0 <= j < |cs| && cs[j].Scored? ensures cs[j].score <= ScanThreshold {
        assert AtMost(cs[j], b.score);
      }
    }
  }

  /** The loop state of `findTemplateWithScale` after the candidates `seen`. */
  ghost predicate ScaleState(seen: seq<Candidate<Hit>>, score: real, pos: Point, scale: real, index: int, hit: Hit) {
    RunningBest(seen, NoBest, Best(score, index), hit) && pos == hit.loc && scale == hit.scale
  }

  /**
   * The loop of `findTemplateWithScale` over the twelve scales: it ends holding the first best
   * score with the position and scale where it was reached (score -1.0 when no scale fits).
   */
  method BestScale(cv: Cv, roi: Mat, tpl: Mat, useGray: bool) returns (bestScore: real, bestPos: Point, bestScale: real)
    ensures var cs := ScaleCandidates(cv, roi, tpl, useGray, TemplateScales);
      var b := Scan(cs, NoBest);
      && bestScore == b.score
      && (b.index != NoBest.index ==> 0 <= b.index < |cs| && cs[b.index].Scored? && bestPos == cs[b.index].item.loc && bestScale == cs[b.index].item.scale)
  {
    bestScore, bestPos, bestScale := -1.0, Point(0, 0), 1.0;
    ghost var done: seq<Candidate<Hit>> := [];
    ghost var bestIndex, bestHit := -1, Hit(bestPos, 0, 0, bestScale);
    var i := 0;
    while i < |TemplateScales|
      invariant 0 <= i <= |TemplateScales|
      invariant done == ScaleCandidates(cv, roi, tpl, useGray, TemplateScales[..i])
      invariant ScaleState(done, bestScore, bestPos, bestScale, bestIndex, bestHit)
    {
      ScaleCandidatesStep(cv, roi, tpl, useGray, TemplateScales, i);
      ghost var c := ScaleCandidate(cv, roi, tpl, useGray, TemplateScales[i]);
      bestScore, bestPos, bestScale, bestIndex, bestHit :=
        VisitScale(cv, roi, tpl, useGray, i, done, bestScore, bestPos, bestScale, bestIndex, bestHit);
      done := done + [c];
      i := i + 1;
    }
    assert TemplateScales[..i] == TemplateScales;
  }

  /** One iteration of the scale loop: the match at scale `TemplateScales[i]` against the best so far. */
  method VisitScale(cv: Cv, roi: Mat, tpl: Mat, useGray: bool, i: nat, ghost done: seq<Candidate<Hit>>,
                    score: real, pos: Point, scale: real, ghost index: int, ghost hit: Hit)
    returns (bestScore: real, bestPos: Point, bestScale: real, ghost bestIndex: int, ghost bestHit: Hit)
    requires i < |TemplateScales| && |done| == i
    requires ScaleState(done, score, pos, scale, index, hit)
    ensures ScaleState(done + [ScaleCandidate(cv, roi, tpl, useGray, TemplateScales[i])],
                       bestScore, bestPos, bestScale, bestIndex, bestHit)
  {
    bestScore, bestPos, bestScale, bestIndex, bestHit := score, pos, scale, index, hit;
    var s := TemplateScales[i];
    ghost var c := ScaleCandidate(cv, roi, tpl, useGray, s);
    RunningBestStep(done, c, NoBest, Best(score, index), hit);
    var workTpl := WorkTemplate(cv, tpl, useGray, s);
    if workTpl.Cols() < roi.Cols() && workTpl.Rows() < roi.Rows() {
      var mm := MatchPeak(cv, roi, workTpl);
      if mm.maxVal > bestScore {
        bestScore, bestPos, bestScale := mm.maxVal, mm.loc, s;
        bestIndex, bestHit := i, c.item;
      }
    }
  }

  /** `findTemplateWithScale`: the scale loop over the band, then the box of the winner when it beats 0.4. */
  method FindTemplateWithScale(cv: Cv, scene: Mat, template: Option<Mat>, useGray: bool, top: real, bottom: real)
    returns (r: Option<ScanResult>)
    requires scene.Rows() >= 1
    ensures r == ScaleSearch(cv, scene, template, useGray, top, bottom)
  {
    if template.None? {
      return None;
    }
    var tpl := template.value;
    var startY := Band(scene.Rows(), top, bottom).0;
    var roi := BandRegion(scene, useGray, top, bottom);
    var bestScore, bestPos, bestScale := BestScale(cv, roi, tpl, useGray);
    ghost var cs := ScaleCandidates(cv, roi, tpl, useGray, TemplateScales);
    ScanOutcome(cs, NoBest);
    if bestScore > ScanThreshold {
      ScaleCandidatesAt(cv, roi, tpl, useGray, TemplateScales, Scan(cs, NoBest).index);
      r := Some(ScanResult(ScaleConfig(scene, tpl, startY, bestPos, bestScale), bestScore, bestScale));
    } else {
      r := None;
    }
  }

  /**
   * `findTemplateGlobal`: the same search on a whole screenshot, reporting the box and its score.
   * The screenshot's RGBA-to-RGB conversion keeps its size and is not modelled otherwise.
   */
  method FindTemplateGlobal(cv: Cv, scene: Mat, template: Option<Mat>, useGray: bool, top: real, bottom: real)
    returns (r: Option<(BoxConfig, real)>)
    requires scene.Rows() >= 1
    ensures var s := ScaleSearch(cv, scene, template, useGray, top, bottom);
      && (r.None? <==> s.None?)
      && (r.Some? ==> r.value == (s.value.config, s.value.score) && r.value.1 > ScanThreshold)
  {
    var res := FindTemplateWithScale(cv, scene, template, useGray, top, bottom);
    if res.Some? {
      if template.Some? {
        ScaleSearchFindsFirstBest(cv, scene, template.value, useGray, top, bottom);
      }
      r := Some((res.value.config, res.value.score));
    } else {
      r := None;
    }
  }

  // ---------------------------------------------------------------------------------------
  // findBestMonsterStrict

  /** The three scales tried around the scale `base` of the VS banner. */
  function LocalScales(base: real): (ls: seq<real>)
    ensures |ls| == 3
  {
    [base * 0.9, base * 1.0, base * 1.1]
  }

  /** The score a monster icon must beat during auto-calibration. */
  const StrictThreshold: real := 0.55

  /**
   * The search window: 15% of the frame in each direction around the estimated centre, clamped
   * into the frame.
   */
  function SearchWindow(scene: Mat, estCX: real, estCY: real): (w: Mat)
    ensures w.Region? && w.of == scene
    ensures w.cols == TruncToInt(scene.Cols() as real * 0.15) && w.rows == TruncToInt(scene.Rows() as real * 0.15)
    ensures 0 <= w.left && w.left + w.cols <= scene.Cols()
    ensures 0 <= w.top && w.top + w.rows <= scene.Rows()
  {
    var cols, rows := scene.Cols(), scene.Rows();
    var searchW := TruncToInt(cols as real * 0.15);
    var searchH := TruncToInt(rows as real * 0.15);
    var startX := CoerceIn(TruncToInt(cols as real * estCX - Half(searchW) as real), 0, cols - searchW);
    var startY := CoerceIn(TruncToInt(rows as real * estCY - Half(searchH) as real), 0, rows - searchH);
    Region(scene, startX, startY, searchW, searchH)
  }

  /** One local scale of one monster: scored only when the resized icon is strictly smaller than the window. */
  function LocalCandidate(cv: Cv, roi: Mat, tpl: Mat, ls: real): (c: Candidate<Hit>)
    ensures c.Scored? <==> Resize(cv, tpl, ls).Cols() < roi.Cols() && Resize(cv, tpl, ls).Rows() < roi.Rows()
    ensures c.Scored? ==>
      var t := Resize(cv, tpl, ls);
      && c.item.cols == t.Cols() && c.item.rows == t.Rows() && c.item.scale == ls
  {
    var t := Resize(cv, tpl, ls);
    if t.Cols() < roi.Cols() && t.Rows() < roi.Rows() then
      var p := MatchPeak(cv, roi, t);
      Scored(p.maxVal, Hit(p.loc, t.Cols(), t.Rows(), ls))
    else Skipped
  }

  /** The candidates of one monster: none when its template is missing, else one per local scale. */
  function MonsterCandidates(cv: Cv, roi: Mat, template: Option<Mat>, base: real): (cs: seq<Candidate<Hit>>)
    ensures |cs| == if template.None? then 0 else 3
  {
    if template.None? then []
    else
      var ls := LocalScales(base);
      seq(3, k requires 0 <= k < 3 => LocalCandidate(cv, roi, template.value, ls[k]))
  }

  /** All candidates, monster by monster in catalogue order. */
  function StrictCandidates(cv: Cv, roi: Mat, ms: seq<MonsterData>, base: real): (cs: seq<Candidate<Hit>>)
    ensures forall j :: 0 <= j < |cs| && cs[j].Scored? ==> cs[j].item.cols < roi.Cols() && cs[j].item.rows < roi.Rows()
    decreases |ms|
  {
    if ms == [] then []
    else StrictCandidates(cv, roi, ms[..|ms| - 1], base) + MonsterCandidates(cv, roi, ms[|ms| - 1].template, base)
  }

  lemma StrictCandidatesStep(cv: Cv, roi: Mat, ms: seq<MonsterData>, base: real, i: nat)
    requires i < |ms|
    ensures StrictCandidates(cv, roi, ms[..i + 1], base)
         == StrictCandidates(cv, roi, ms[..i], base) + MonsterCandidates(cv, roi, ms[i].template, base)
  {
    assert ms[..i + 1][..i] == ms[..i];
  }

  /** The reported box: the winning icon's size, centred on its peak, in frame fractions. */
  function StrictConfig(scene: Mat, win: Mat, loc: Point, w: real, h: real): (c: BoxConfig)
    requires scene.Cols() >= 1 && scene.Rows() >= 1 && win.Region?
    ensures c.width == TruncToInt(w) && c.height == TruncToInt(h)
    ensures c.centerX == ((win.left + loc.x) as real + w / 2.0) / scene.Cols() as real
    ensures c.centerY == ((win.top + loc.y) as real + h / 2.0) / scene.Rows() as real
  {
    BoxConfig(((win.left + loc.x) as real + w / 2.0) / scene.Cols() as real,
              ((win.top + loc.y) as real + h / 2.0) / scene.Rows() as real,
              TruncToInt(w), TruncToInt(h))
  }

  /** The strict search as a function: the first best (monster, scale), reported when it beats 0.55. */
  function StrictSearch(cv: Cv, scene: Mat, master: seq<MonsterData>, estCX: real, estCY: real, base: real)
    : Option<BoxConfig>
  {
    var win := SearchWindow(scene, estCX, estCY);
    var cs := StrictCandidates(cv, win, master, base);
    var b := Scan(cs, NoBest);
    ScanOutcome(cs, NoBest);
    if b.score > StrictThreshold then
      var h := cs[b.index].item;
      Some(StrictConfig(scene, win, h.loc, h.cols as real, h.rows as real))
    else None
  }

  /**
   * A box is reported exactly when some fitting (monster, scale) scores above 0.55; it then has the
   * size of the FIRST best-scoring resized icon.
   */
  lemma StrictSearchFindsFirstBest(cv: Cv, scene: Mat, master: seq<MonsterData>, estCX: real, estCY: real, base: real)
    ensures
      var r := StrictSearch(cv, scene, master, estCX, estCY, base);
      var cs := StrictCandidates(cv, SearchWindow(scene, estCX, estCY), master, base);
      && (r.Some? <==> exists j :: 0 <= j < |cs| && cs[j].Scored? && cs[j].score > StrictThreshold)
      && (r.Some? ==> exists j :: && FirstMaxAt(cs, j)
                                 && r.value.width == cs[j].item.cols && r.value.height == cs[j].item.rows)
  {
    var cs := StrictCandidates(cv, SearchWindow(scene, estCX, estCY), master, base);
    var b := Scan(cs, NoBest);
    ScanOutcome(cs, NoBest);
    if exists j :: 0 <= j < |cs| && cs[j].Scored? && cs[j].score > StrictThreshold {
      var j :| 0 <= j < |cs| && cs[j].Scored? && cs[j].score > StrictThreshold;
      assert AtMost(cs[j], b.score);
    }
  }

  /**
   * The loop state of `findBestMonsterStrict` after the candidates `seen`: the running best, and
   * the peak position and icon size of the candidate it names.
   */
  ghost predicate StrictState(seen: seq<Candidate<Hit>>, score: real, pos: Point, w: real, h: real, index: int, hit: Hit) {
    && RunningBest(seen, NoBest, Best(score, index), hit)
    && (index != NoBest.index ==> pos == hit.loc && w == hit.cols as real && h == hit.rows as real)
  }

  /** The inner loop of `findBestMonsterStrict`: one monster's icon at the three local scales. */
  method ScanMonster(cv: Cv, roi: Mat, tpl: Mat, base: real, ghost seen: seq<Candidate<Hit>>,
                     score: real, pos: Point, w: real, h: real, ghost index: int, ghost hit: Hit)
    returns (bestScore: real, bestPos: Point, bestW: real, bestH: real, ghost bestIndex: int, ghost bestHit: Hit)
    requires StrictState(seen, score, pos, w, h, index, hit)
    ensures StrictState(seen + MonsterCandidates(cv, roi, Some(tpl), base),
                        bestScore, bestPos, bestW, bestH, bestIndex, bestHit)
  {
    bestScore, bestPos, bestW, bestH, bestIndex, bestHit := score, pos, w, h, index, hit;
    var localScales := LocalScales(base);
    ghost var mine := MonsterCandidates(cv, roi, Some(tpl), base);
    ghost var done := seen;
    var k := 0;
    while k < |localScales|
      invariant 0 <= k <= |localScales|
      invariant done == seen + mine[..k]
      invariant StrictState(done, bestScore, bestPos, bestW, bestH, bestIndex, bestHit)
    {
      var ls := localScales[k];
      assert mine[k] == LocalCandidate(cv, roi, tpl, ls);
      RunningBestStep(done, mine[k], NoBest, Best(bestScore, bestIndex), bestHit);
      var scaledTpl := Resize(cv, tpl, ls);
      if scaledTpl.Cols() < roi.Cols() && scaledTpl.Rows() < roi.Rows() {
        var mm := MatchPeak(cv, roi, scaledTpl);
        if mm.maxVal > bestScore {
          bestScore, bestPos := mm.maxVal, mm.loc;
          bestW, bestH := scaledTpl.Cols() as real, scaledTpl.Rows() as real;
          bestIndex, bestHit := |done|, mine[k].item;
        }
      }
      AppendNext(seen, mine, k);
      done := done + [mine[k]];
      k := k + 1;
    }
    assert mine[..k] == mine;
  }

  /** `findBestMonsterStrict`: the loop over the catalogue, each monster tried at the local scales. */
  method FindBestMonsterStrict(cv: Cv, scene: Mat, master: seq<MonsterData>, estCX: real, estCY: real, base: real)
    returns (r: Option<BoxConfig>)
    ensures r == StrictSearch(cv, scene, master, estCX, estCY, base)
  {
    var roi := SearchWindow(scene, estCX, estCY);
    var bestScore, bestPos := -1.0, Point(0, 0);
    var bestW, bestH := 80.0 * base, 130.0 * base;
    ghost var done: seq<Candidate<Hit>> := [];
    ghost var bestIndex, bestHit := -1, Hit(bestPos, 0, 0, base);

    var mi := 0;
    while mi < |master|
      invariant 0 <= mi <= |master|
      invariant done == StrictCandidates(cv, roi, master[..mi], base)
      invariant StrictState(done, bestScore, bestPos, bestW, bestH, bestIndex, bestHit)
    {
      StrictCandidatesStep(cv, roi, master, base, mi);
      var m := master[mi];
      if m.template.Some? {
        bestScore, bestPos, bestW, bestH, bestIndex, bestHit :=
          ScanMonster(cv, roi, m.template.value, base, done, bestScore, bestPos, bestW, bestH, bestIndex, bestHit);
        done := done + MonsterCandidates(cv, roi, m.template, base);
      } else {
        assert done + [] == done;
      }
      mi := mi + 1;
    }
    assert master[..mi] == master;
    ScanOutcome(done, NoBest);
    if bestScore > StrictThreshold {
      r := Some(StrictConfig(scene, roi, bestPos, bestW, bestH));
    } else {
      r := None;
    }
  }

  // ---------------------------------------------------------------------------------------
  // findBestMonsterMatch

  /** One monster against a slot crop: scored when its template exists and, resized, fits (non-strictly). */
  function MatchCandidate(cv: Cv, roi: Mat, m: MonsterData, s: real): (c: Candidate<string>)
    ensures c.Scored? <==> m.template.Some? && FitsWithin(Resize(cv, m.template.value, s), roi)
    ensures c.Scored? ==> c.item == m.name
  {
    if m.template.None? then Skipped
    else
      var t := Resize(cv, m.template.value, s);
      if t.Cols() <= roi.Cols() && t.Rows() <= roi.Rows() then Scored(MatchPeak(cv, roi, t).maxVal, m.name)
      else Skipped
  }

  function MatchCandidates(cv: Cv, roi: Mat, master: seq<MonsterData>, s: real): (cs: seq<Candidate<string>>)
    ensures |cs| == |master|
  {
    seq(|master|, i requires 0 <= i < |master| => MatchCandidate(cv, roi, master[i], s))
  }

  /** The monster match as a function: the first best monster, or ("", -1.0) when nothing beat -1.0. */
  function MonsterMatch(cv: Cv, roi: Mat, master: seq<MonsterData>, s: real): MatchResult {
    var cs := MatchCandidates(cv, roi, master, s);
    var b := Scan(cs, NoBest);
    ScanOutcome(cs, NoBest);
    MatchResult(if b.index < 0 then "" else cs[b.index].item, b.score)
  }

  /**
   * The match names the FIRST monster (in catalogue order) with the greatest score; when no
   * template fits (or none beats -1.0) it is ("", -1.0), so a name is bound only from a real match.
   */
  lemma MonsterMatchFindsFirstBest(cv: Cv, roi: Mat, master: seq<MonsterData>, s: real)
    ensures
      var r := MonsterMatch(cv, roi, master, s);
      var cs := MatchCandidates(cv, roi, master, s);
      && (forall j :: 0 <= j < |cs| ==> AtMost(cs[j], r.score))
      && (r.score > -1.0 ==> exists j :: FirstMaxAt(cs, j) && r.name == master[j].name && r.score == cs[j].score)
      && (r.score <= -1.0 ==> r == MatchResult("", -1.0))
  {
    var cs := MatchCandidates(cv, roi, master, s);
    ScanOutcome(cs, NoBest);
  }

  /** `findBestMonsterMatch`: the loop over the catalogue keeping the best score and name. */
  method FindBestMonsterMatch(cv: Cv, roi: Mat, master: seq<MonsterData>, s: real) returns (r: MatchResult)
    ensures r == MonsterMatch(cv, roi, master, s)
  {
    var bestScore, bestName := -1.0, "";
    ghost var cs := MatchCandidates(cv, roi, master, s);
    ghost var bestIndex := -1;
    var i := 0;
    while i < |master|
      invariant 0 <= i <= |master|
      invariant RunningBest(cs[..i], NoBest, Best(bestScore, bestIndex), bestName)
      invariant bestIndex == NoBest.index ==> bestName == ""
    {
      var monster := master[i];
      assert cs[i] == MatchCandidate(cv, roi, monster, s);
      RunningBestAt(cs, i, NoBest, Best(bestScore, bestIndex), bestName);
      if monster.template.Some? {
        var scaledTpl := Resize(cv, monster.template.value, s);
        if scaledTpl.Cols() <= roi.Cols() && scaledTpl.Rows() <= roi.Rows() {
          var score := MatchPeak(cv, roi, scaledTpl).maxVal;
          if score > bestScore {
            bestScore, bestName := score, monster.name;
            bestIndex := i;
          }
        }
      }
      i := i + 1;
    }
    assert cs[..i] == cs;
    r := MatchResult(bestName, bestScore);
  }
}
