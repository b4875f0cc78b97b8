/**
 * The analyser of `BattleAnalyzer.kt`: the eight identification slots, the per-frame checks
 * (VS banner, WIN/LOSE banner, selected party) and the auto-calibration of the battle scene.
 * The vision library is the oracle `Vision.Cv`; the frame is a `Vision.Mat`.
 */
module BattleAnalyzer {
  import opened Wrappers
  import opened Numerics
  import opened Selection
  import opened Vision
  import opened DataModels
  import opened Crop
  import opened Searches

  const VsThreshold: real := 0.7
  const WinThreshold: real := 0.4
  const LoseThreshold: real := 0.4
  const MonsterThreshold: real := 0.7
  const PartyThreshold: real := 0.45

  /** The UI templates; each is None when its asset failed to load. */
  datatype Templates = Templates(vs: Option<Mat>, win: Option<Mat>, lose: Option<Mat>, select: Option<Mat>)

  // ---------------------------------------------------------------------------------------
  // Per-frame checks

  /** `isVsDetected`: the VS box matches the VS template above 0.7. */
  function IsVsDetected(cv: Cv, frame: Mat, cal: CalibrationData, t: Templates): (r: Outcome<bool>)
    ensures r.Threw? <==> PerformColorMatch(cv, frame, cal.vsBox, t.vs, cal.uiScale).Threw?
    ensures r.Done? ==> (r.value <==> PerformColorMatch(cv, frame, cal.vsBox, t.vs, cal.uiScale).value > VsThreshold)
    ensures t.vs.None? ==> r == Done(false)
  {
    match PerformColorMatch(cv, frame, cal.vsBox, t.vs, cal.uiScale)
    case Threw => Threw
    case Done(score) => Done(score > VsThreshold)
  }

  /**
   * `checkBattleResult`: WIN when the win box scores above 0.4; only otherwise is the lose box
   * scored, giving LOSE above 0.4; else no result.
   */
  function CheckBattleResult(cv: Cv, frame: Mat, cal: CalibrationData, t: Templates): (r: Outcome<Option<string>>)
    ensures r.Done? && r.value.Some? ==> r.value.value == WIN || r.value.value == LOSE
    ensures var w := PerformColorMatch(cv, frame, cal.winBox, t.win, cal.uiScale);
      && (r == Done(Some(WIN)) <==> w.Done? && w.value > WinThreshold)
      && (w.Threw? ==> r.Threw?)
    ensures var w := PerformColorMatch(cv, frame, cal.winBox, t.win, cal.uiScale);
      var l := PerformColorMatch(cv, frame, cal.loseBox, t.lose, cal.uiScale);
      && (r == Done(Some(LOSE)) <==> w.Done? && w.value <= WinThreshold && l.Done? && l.value > LoseThreshold)
      && (r == Done(None) <==> w.Done? && w.value <= WinThreshold && l.Done? && l.value <= LoseThreshold)
  {
    match PerformColorMatch(cv, frame, cal.winBox, t.win, cal.uiScale)
    case Threw => Threw
    case Done(winScore) =>
      if winScore > WinThreshold then Done(Some(WIN))
      else
        match PerformColorMatch(cv, frame, cal.loseBox, t.lose, cal.uiScale)
        case Threw => Threw
        case Done(loseScore) => if loseScore > LoseThreshold then Done(Some(LOSE)) else Done(None)
  }

  /** With neither banner template loaded, both scores are 0.0 and there is never a result. */
  lemma NoTemplatesNoResult(cv: Cv, frame: Mat, cal: CalibrationData, t: Templates)
    requires t.win.None? && t.lose.None?
    ensures CheckBattleResult(cv, frame, cal, t) == Done(None)
  {
  }

  /** The party-selector scores, box by box; the first box whose crop throws aborts the list. */
  function PartyScores(cv: Cv, frame: Mat, boxes: seq<BoxConfig>, tpl: Option<Mat>, uiScale: real): (r: Outcome<seq<real>>)
    ensures r.Done? ==> |r.value| == |boxes|
    ensures r.Done? ==> forall i :: 0 <= i < |boxes| ==> PerformColorMatch(cv, frame, boxes[i], tpl, uiScale) == Done(r.value[i])
    ensures r.Threw? <==> exists i :: 0 <= i < |boxes| && PerformColorMatch(cv, frame, boxes[i], tpl, uiScale).Threw?
    decreases |boxes|
  {
    if boxes == [] then Done([])
    else
      var init := boxes[..|boxes| - 1];
      match PartyScores(cv, frame, init, tpl, uiScale)
      case Threw =>
        var i :| 0 <= i < |init| && PerformColorMatch(cv, frame, init[i], tpl, uiScale).Threw?;
        assert boxes[i] == init[i];
        Threw
      case Done(scores) =>
        match PerformColorMatch(cv, frame, boxes[|boxes| - 1], tpl, uiScale)
        case Threw => Threw
        case Done(s) =>
          assert forall i :: 0 <= i < |init| ==> boxes[i] == init[i];
          Done(scores + [s])
  }

  /** The scores as scan candidates, each tagged with its index. */
  function ScoreCandidates(scores: seq<real>): (cs: seq<Candidate<int>>)
    ensures |cs| == |scores|
    ensures forall k :: 0 <= k < |cs| ==> cs[k] == Scored(scores[k], k)
  {
    seq(|scores|, k requires 0 <= k < |scores| => Scored(scores[k], k))
  }

  /**
   * The decision of `detectSelectedParty`: the index of the first greatest score when that score
   * is at least 0.45, else -1 (also for no boxes at all).
   */
  function SelectParty(scores: seq<real>): (r: int)
    ensures r == -1 || (0 <= r < |scores| && scores[r] >= PartyThreshold)
    ensures r != -1 ==>
      (forall k :: 0 <= k < |scores| ==> scores[k] <= scores[r]) && (forall k :: 0 <= k < r ==> scores[k] < scores[r])
    ensures r == -1 <==> forall k :: 0 <= k < |scores| ==> scores[k] < PartyThreshold
  {
    if scores == [] then -1
    else
      var cs := ScoreCandidates(scores);
      var start := Best(scores[0], 0);
      var b := Scan(cs, start);
      ScanIsFirstArgMax(cs, start);
      assert forall k :: 0 <= k < |cs| ==> AtMost(cs[k], b.score);
      if b.score >= PartyThreshold then b.index else -1
  }

  /** `detectSelectedParty`: the selected party index, or -1. */
  function DetectSelectedParty(cv: Cv, frame: Mat, cal: CalibrationData, t: Templates): (r: Outcome<int>)
    ensures r.Threw? <==> PartyScores(cv, frame, cal.partySelectBoxes, t.select, cal.uiScale).Threw?
    ensures r.Done? ==> -1 <= r.value < |cal.partySelectBoxes|
  {
    match PartyScores(cv, frame, cal.partySelectBoxes, t.select, cal.uiScale)
    case Threw => Threw
    case Done(scores) => Done(SelectParty(scores))
  }

  /** Without the selector template every score is 0.0, so no party is ever detected. */
  lemma NoSelectTemplateNoParty(cv: Cv, frame: Mat, cal: CalibrationData, t: Templates)
    requires t.select.None?
    ensures DetectSelectedParty(cv, frame, cal, t) == Done(-1)
  {
    var r := PartyScores(cv, frame, cal.partySelectBoxes, t.select, cal.uiScale);
    assert r.Done?;
    assert forall k :: 0 <= k < |r.value| ==> r.value[k] == 0.0;
  }

  // ---------------------------------------------------------------------------------------
  // autoCalibrateBattleScene

  /** The reference positions of the own slots and of the enemy slots on the 1080x2364 screen. */
  const MyRefs: seq<(real, real)> := [(196.0, 1635.0), (391.0, 1635.0), (585.0, 1635.0), (780.0, 1635.0)]
  const EnemyRefs: seq<(real, real)> := [(201.0, 915.0), (396.0, 915.0), (590.0, 915.0), (785.0, 915.0)]

  /**
   * Where a slot is expected, as fractions of the frame: the VS centre (in pixels) plus the slot's
   * reference offset from (540, 1260) scaled by `s`, divided by the frame size.
   */
  function EstimatedFraction(scene: Mat, vsCx: real, vsCy: real, s: real, ref: (real, real)): (real, real)
    requires scene.Cols() >= 1 && scene.Rows() >= 1
  {
    ((vsCx + (ref.0 - 540.0) * s) / scene.Cols() as real, (vsCy + (ref.1 - 1260.0) * s) / scene.Rows() as real)
  }

  /** The estimate, scaled back to pixels, is the VS centre displaced by the scaled reference offset. */
  lemma EstimatedFractionOffset(scene: Mat, vsCx: real, vsCy: real, s: real, ref: (real, real))
    requires scene.Cols() >= 1 && scene.Rows() >= 1
    ensures var est := EstimatedFraction(scene, vsCx, vsCy, s, ref);
      && est.0 * scene.Cols() as real - vsCx == (ref.0 - 540.0) * s
      && est.1 * scene.Rows() as real - vsCy == (ref.1 - 1260.0) * s
  {
  }

  /**
   * `getMonsterConfig` around the estimate `est` (fractions): the strict search's box, or, when it
   * finds nothing, a box at the estimate with the default icon size (80x130) scaled by `s`.
   */
  function SlotConfig(cv: Cv, scene: Mat, master: seq<MonsterData>, est: (real, real), s: real): (b: BoxConfig)
  {
    match StrictSearch(cv, scene, master, est.0, est.1, s)
    case Some(found) => found
    case None => BoxConfig(est.0, est.1, TruncToInt(80.0 * s), TruncToInt(130.0 * s))
  }

  /** A slot box is either what the strict search found or the scaled default box at the estimate. */
  lemma SlotConfigIsFoundOrEstimated(cv: Cv, scene: Mat, master: seq<MonsterData>, est: (real, real), s: real)
    ensures var b := SlotConfig(cv, scene, master, est, s);
      var found := StrictSearch(cv, scene, master, est.0, est.1, s);
      && (found.Some? ==> b == found.value)
      && (found.None? ==> b.centerX == est.0 && b.centerY == est.1
                          && b.width == TruncToInt(80.0 * s) && b.height == TruncToInt(130.0 * s))
  {
  }

  /** The local `getMonsterConfig` of `autoCalibrateBattleScene`. */
  method MonsterConfig(cv: Cv, scene: Mat, master: seq<MonsterData>, est: (real, real), s: real) returns (b: BoxConfig)
    ensures b == SlotConfig(cv, scene, master, est, s)
  {
    var found := FindBestMonsterStrict(cv, scene, master, est.0, est.1, s);
    if found.Some? {
      b := found.value;
    } else {
      b := BoxConfig(est.0, est.1, TruncToInt(80.0 * s), TruncToInt(130.0 * s));
    }
  }

  /** The four slot boxes for the reference positions `refs`, in order, around the VS centre (`cx`, `cy`) in pixels. */
  function SlotConfigs(cv: Cv, scene: Mat, master: seq<MonsterData>, cx: real, cy: real, s: real, refs: seq<(real, real)>)
    : (bs: seq<BoxConfig>)
    requires scene.Cols() >= 1 && scene.Rows() >= 1 && |refs| == 4
    ensures |bs| == |refs|
  {
    [SlotConfig(cv, scene, master, EstimatedFraction(scene, cx, cy, s, refs[0]), s),
     SlotConfig(cv, scene, master, EstimatedFraction(scene, cx, cy, s, refs[1]), s),
     SlotConfig(cv, scene, master, EstimatedFraction(scene, cx, cy, s, refs[2]), s),
     SlotConfig(cv, scene, master, EstimatedFraction(scene, cx, cy, s, refs[3]), s)]
  }

  /** The VS banner's centre in pixels. */
  function VsCentre(scene: Mat, vs: ScanResult): (real, real) {
    (vs.config.centerX * scene.Cols() as real, vs.config.centerY * scene.Rows() as real)
  }

  /** The profile built from a found VS banner: its box and scale, and the eight extrapolated slots. */
  function BattleSceneProfile(cv: Cv, scene: Mat, master: seq<MonsterData>, vs: ScanResult): (d: CalibrationData)
    requires scene.Cols() >= 1 && scene.Rows() >= 1
    ensures HasSlotCounts(d)
    ensures d.uiScale == vs.scale && d.vsBox == vs.config
    ensures var c := VsCentre(scene, vs);
      && d.myPartyBoxes == SlotConfigs(cv, scene, master, c.0, c.1, vs.scale, MyRefs)
      && d.enemyPartyBoxes == SlotConfigs(cv, scene, master, c.0, c.1, vs.scale, EnemyRefs)
    ensures var def := DefaultCalibration();
      d.partySelectBoxes == def.partySelectBoxes && d.winBox == def.winBox && d.loseBox == def.loseBox
  {
    var c := VsCentre(scene, vs);
    DefaultCalibration().(
      uiScale := vs.scale,
      vsBox := vs.config,
      myPartyBoxes := SlotConfigs(cv, scene, master, c.0, c.1, vs.scale, MyRefs),
      enemyPartyBoxes := SlotConfigs(cv, scene, master, c.0, c.1, vs.scale, EnemyRefs))
  }

  /**
   * `autoCalibrateBattleScene`: find the VS banner in the middle band (30%..70% of the height);
   * without it there is no profile, with it the profile is `BattleSceneProfile`.
   */
  method AutoCalibrateBattleScene(cv: Cv, scene: Mat, vsTemplate: Option<Mat>, master: seq<MonsterData>)
    returns (r: Option<CalibrationData>)
    requires scene.Cols() >= 1 && scene.Rows() >= 1
    ensures var vs := ScaleSearch(cv, scene, vsTemplate, false, 0.3, 0.7);
      && (r.None? <==> vs.None?)
      && (r.Some? ==> r.value == BattleSceneProfile(cv, scene, master, vs.value))
  {
    var vsRes := FindTemplateWithScale(cv, scene, vsTemplate, false, 0.3, 0.7);
    if vsRes.None? {
      return None;
    }
    var vs := vsRes.value;
    var vsCx, vsCy := VsCentre(scene, vs).0, VsCentre(scene, vs).1;
    var my0 := MonsterConfig(cv, scene, master, EstimatedFraction(scene, vsCx, vsCy, vs.scale, MyRefs[0]), vs.scale);
    var my1 := MonsterConfig(cv, scene, master, EstimatedFraction(scene, vsCx, vsCy, vs.scale, MyRefs[1]), vs.scale);
    var my2 := MonsterConfig(cv, scene, master, EstimatedFraction(scene, vsCx, vsCy, vs.scale, MyRefs[2]), vs.scale);
    var my3 := MonsterConfig(cv, scene, master, EstimatedFraction(scene, vsCx, vsCy, vs.scale, MyRefs[3]), vs.scale);
    var enemy0 := MonsterConfig(cv, scene, master, EstimatedFraction(scene, vsCx, vsCy, vs.scale, EnemyRefs[0]), vs.scale);
    var enemy1 := MonsterConfig(cv, scene, master, EstimatedFraction(scene, vsCx, vsCy, vs.scale, EnemyRefs[1]), vs.scale);
    var enemy2 := MonsterConfig(cv, scene, master, EstimatedFraction(scene, vsCx, vsCy, vs.scale, EnemyRefs[2]), vs.scale);
    var enemy3 := MonsterConfig(cv, scene, master, EstimatedFraction(scene, vsCx, vsCy, vs.scale, EnemyRefs[3]), vs.scale);
    var newData := DefaultCalibration().(
      uiScale := vs.scale,
      vsBox := vs.config,
      myPartyBoxes := [my0, my1, my2, my3],
      enemyPartyBoxes := [enemy0, enemy1, enemy2, enemy3]);
    return Some(newData);
  }

  // ---------------------------------------------------------------------------------------
  // identifyStepByStep

  /** The eight identification slots: 0..3 are the own party, 4..7 the enemy party. */
  const SlotCount: nat := 8

  /**
   * The box of slot `i` in the profile: own slot `i` for `i < 4`, enemy slot `i - 4` otherwise;
   * None when the profile's list is too short (the list access throws).
   */
  function SlotBox(cal: CalibrationData, i: nat): (r: Option<BoxConfig>)
    ensures i < 4 ==> (r.Some? <==> i < |cal.myPartyBoxes|)
    ensures i >= 4 ==> (r.Some? <==> i - 4 < |cal.enemyPartyBoxes|)
    ensures r.Some? ==> r.value == if i < 4 then cal.myPartyBoxes[i] else cal.enemyPartyBoxes[i - 4]
  {
    if i < 4 then (if i < |cal.myPartyBoxes| then Some(cal.myPartyBoxes[i]) else None)
    else if i - 4 < |cal.enemyPartyBoxes| then Some(cal.enemyPartyBoxes[i - 4])
    else None
  }

  /** What looking at one empty slot gives: an exception, nothing to match, or the best match. */
  datatype SlotStep = SlotThrows | SlotSkipped | SlotScored(result: MatchResult)

  /** One empty slot of `identifyStepByStep`: its box, its crop, then the catalogue match at the UI scale. */
  function SlotStepAt(cv: Cv, frame: Mat, cal: CalibrationData, master: seq<MonsterData>, i: nat): (r: SlotStep)
    ensures r.SlotThrows? <==> SlotBox(cal, i).None? || GetRawROI(frame, SlotBox(cal, i).value).CropThrows?
    ensures r.SlotSkipped? <==> SlotBox(cal, i).Some? && GetRawROI(frame, SlotBox(cal, i).value).NoCrop?
    ensures r.SlotScored? ==> r.result == MonsterMatch(cv, GetRawROI(frame, SlotBox(cal, i).value).m, master, cal.uiScale)
  {
    match SlotBox(cal, i)
    case None => SlotThrows
    case Some(box) =>
      match GetRawROI(frame, box)
      case CropThrows => SlotThrows
      case NoCrop => SlotSkipped
      case Cropped(roi) => SlotScored(MonsterMatch(cv, roi, master, cal.uiScale))
  }

  /** The slots after a pass, and whether the pass was cut short by an exception. */
  datatype PassResult = PassResult(names: seq<Option<string>>, threw: bool)

  /**
   * The first `k` slots of one identification pass over `names`: an identified slot is passed over;
   * an empty one is bound to the match's name when it scores above 0.7; an exception ends the pass.
   */
  function Pass(cv: Cv, frame: Mat, cal: CalibrationData, master: seq<MonsterData>, names: seq<Option<string>>, k: nat)
    : (r: PassResult)
    requires k <= |names|
    ensures |r.names| == |names|
    decreases k
  {
    if k == 0 then PassResult(names, false)
    else
      var before := Pass(cv, frame, cal, master, names, k - 1);
      var i := k - 1;
      if before.threw || before.names[i].Some? then before
      else
        match SlotStepAt(cv, frame, cal, master, i)
        case SlotThrows => PassResult(before.names, true)
        case SlotSkipped => before
        case SlotScored(m) => if m.score > MonsterThreshold then PassResult(before.names[i := Some(m.name)], false) else before
  }

  /** The slot a pass reaches has not been touched yet by the slots before it. */
  lemma {:induction false} PassLeavesLaterSlots(cv: Cv, frame: Mat, cal: CalibrationData, master: seq<MonsterData>,
                                                names: seq<Option<string>>, k: nat, i: nat)
    requires k <= i < |names|
    ensures Pass(cv, frame, cal, master, names, k).names[i] == names[i]
    decreases k
  {
    if k > 0 {
      PassLeavesLaterSlots(cv, frame, cal, master, names, k - 1, i);
    }
  }

  /** What slot `i` holds after a pass `r` over `names` that reached the first `k` slots (see PassSlots). */
  ghost predicate SlotAfterPass(cv: Cv, frame: Mat, cal: CalibrationData, master: seq<MonsterData>,
                                names: seq<Option<string>>, k: nat, r: PassResult, i: nat)
    requires i < |names| == |r.names|
  {
    var step := SlotStepAt(cv, frame, cal, master, i);
    && (names[i].Some? ==> r.names[i] == names[i])
    && (r.names[i] != names[i] ==>
          i < k && step.SlotScored? && step.result.score > MonsterThreshold && r.names[i] == Some(step.result.name))
    && (!r.threw && i < k && names[i].None? && step.SlotScored? && step.result.score > MonsterThreshold
        ==> r.names[i] == Some(step.result.name))
  }

  /**
   * What a pass does to each slot: an identified slot keeps its name; an empty slot is bound only
   * to the name of a match scoring above 0.7 for that slot; and when the pass did not throw, every
   * empty slot whose match scores above 0.7 is bound to that match's name.
   */
  lemma {:induction false} PassSlots(cv: Cv, frame: Mat, cal: CalibrationData, master: seq<MonsterData>,
                                     names: seq<Option<string>>, k: nat)
    requires k <= |names|
    ensures forall i :: 0 <= i < |names| ==> SlotAfterPass(cv, frame, cal, master, names, k, Pass(cv, frame, cal, master, names, k), i)
    decreases k
  {
    if k > 0 {
      PassSlots(cv, frame, cal, master, names, k - 1);
      PassLeavesLaterSlots(cv, frame, cal, master, names, k - 1, k - 1);
      var before := Pass(cv, frame, cal, master, names, k - 1);
      var r := Pass(cv, frame, cal, master, names, k);
      forall i | 0 <= i < |names|
        ensures SlotAfterPass(cv, frame, cal, master, names, k, r, i)
      {
        assert SlotAfterPass(cv, frame, cal, master, names, k - 1, before, i);
        if i != k - 1 {
          assert r.names[i] == before.names[i];
        }
      }
    }
  }

  /** A pass throws exactly when some empty slot among the first `k` has no box or a box its crop rejects. */
  lemma {:induction false} PassThrows(cv: Cv, frame: Mat, cal: CalibrationData, master: seq<MonsterData>,
                                      names: seq<Option<string>>, k: nat)
    requires k <= |names|
    ensures Pass(cv, frame, cal, master, names, k).threw <==>
      exists i :: 0 <= i < k && names[i].None? && SlotStepAt(cv, frame, cal, master, i).SlotThrows?
    decreases k
  {
    if k > 0 {
      PassThrows(cv, frame, cal, master, names, k - 1);
      PassLeavesLaterSlots(cv, frame, cal, master, names, k - 1, k - 1);
      var before := Pass(cv, frame, cal, master, names, k - 1);
      var thrown := names[k - 1].None? && SlotStepAt(cv, frame, cal, master, k - 1).SlotThrows?;
      assert Pass(cv, frame, cal, master, names, k).threw == (before.threw || thrown);
      if before.threw {
        var i :| 0 <= i < k - 1 && names[i].None? && SlotStepAt(cv, frame, cal, master, i).SlotThrows?;
        assert 0 <= i < k;
      } else if !thrown {
        forall i | 0 <= i < k && names[i].None?
          ensures !SlotStepAt(cv, frame, cal, master, i).SlotThrows?
        {
          if i < k - 1 {
            assert !(0 <= i < k - 1 && names[i].None? && SlotStepAt(cv, frame, cal, master, i).SlotThrows?);
          }
        }
      }
    }
  }

  /** An exception ends the pass: the later slots are not looked at. */
  lemma {:induction false} PassEndsOnThrow(cv: Cv, frame: Mat, cal: CalibrationData, master: seq<MonsterData>,
                                           names: seq<Option<string>>, k: nat, m: nat)
    requires k <= m <= |names| && Pass(cv, frame, cal, master, names, k).threw
    ensures Pass(cv, frame, cal, master, names, m) == Pass(cv, frame, cal, master, names, k)
    decreases m
  {
    if m > k {
      PassEndsOnThrow(cv, frame, cal, master, names, k, m - 1);
    }
  }

  /** Every slot is identified (`all { it != null }`, stopping at the first empty slot). */
  function AllIdentified(names: seq<Option<string>>): (r: bool)
    decreases |names|
  {
    names == [] || (names[0].Some? && AllIdentified(names[1..]))
  }

  lemma {:induction false} AllIdentifiedIff(names: seq<Option<string>>)
    ensures AllIdentified(names) <==> forall i :: 0 <= i < |names| ==> names[i].Some?
    decreases |names|
  {
    if names != [] {
      AllIdentifiedIff(names[1..]);
      assert forall i :: 1 <= i < |names| ==> names[i] == names[1..][i - 1];
    }
  }

  /** Once every slot is identified, further passes change nothing and never throw. */
  lemma PassAfterAllIdentified(cv: Cv, frame: Mat, cal: CalibrationData, master: seq<MonsterData>, names: seq<Option<string>>)
    requires |names| == SlotCount && AllIdentified(names)
    ensures Pass(cv, frame, cal, master, names, SlotCount) == PassResult(names, false)
  {
    AllIdentifiedIff(names);
    PassSlots(cv, frame, cal, master, names, SlotCount);
    PassThrows(cv, frame, cal, master, names, SlotCount);
    var r := Pass(cv, frame, cal, master, names, SlotCount);
    forall i | 0 <= i < SlotCount
      ensures r.names[i] == names[i]
    {
      assert SlotAfterPass(cv, frame, cal, master, names, SlotCount, r, i);
    }
  }

  /** A name bound by a pass is the name of a catalogue entry. */
  lemma PassBindsCatalogueNames(cv: Cv, frame: Mat, cal: CalibrationData, master: seq<MonsterData>,
                                names: seq<Option<string>>, k: nat, i: nat)
    requires k <= |names| && i < |names|
    requires Pass(cv, frame, cal, master, names, k).names[i] != names[i]
    ensures exists j :: 0 <= j < |master| && Pass(cv, frame, cal, master, names, k).names[i] == Some(master[j].name)
  {
    PassSlots(cv, frame, cal, master, names, k);
    assert SlotAfterPass(cv, frame, cal, master, names, k, Pass(cv, frame, cal, master, names, k), i);
    var box := SlotBox(cal, i).value;
    var roi := GetRawROI(frame, box).m;
    MonsterMatchFindsFirstBest(cv, roi, master, cal.uiScale);
  }

  /** `getCurrentResults`' rendering of a slot: its name, or "?" while it is empty. */
  function Shown(n: Option<string>): string {
    n.GetOr("?")
  }

  /**
   * The analyser's state: the monster catalogue, the UI templates, the active calibration profile
   * and the eight identification slots.
   */
  class Analyzer {
    var master: seq<MonsterData>
    var templates: Templates
    var calibration: CalibrationData
    const names: array<Option<string>>

    ghost predicate Valid()
      reads this
    {
      names.Length == SlotCount
    }

    /** A new analyser: no template loaded, the default profile, every slot empty. */
    constructor (master: seq<MonsterData>)
      ensures Valid() && fresh(names)
      ensures this.master == master && templates == Templates(None, None, None, None)
      ensures calibration == DefaultCalibration()
      ensures forall i :: 0 <= i < SlotCount ==> names[i].None?
    {
      this.master := master;
      templates := Templates(None, None, None, None);
      calibration := DefaultCalibration();
      names := new Option<string>[SlotCount](_ => None);
    }

    /**
     * `loadTemplates`, with the asset reads as parameters: `loaded[i]` is monster `i`'s decoded
     * template, or None when its asset could not be read (the entry then keeps what it had).
     */
    method LoadTemplates(loaded: seq<Option<Mat>>, ui: Templates)
      requires |loaded| == |master|
      modifies this
      ensures |master| == |old(master)| && templates == ui
      ensures forall i :: 0 <= i < |master| ==>
        && master[i].name == old(master[i].name) && master[i].fileName == old(master[i].fileName)
        && master[i].template == (if loaded[i].Some? then loaded[i] else old(master[i].template))
      ensures calibration == old(calibration)
    {
      for i := 0 to |master|
        invariant |master| == |old(master)|
        invariant forall j :: 0 <= j < |master| ==>
          && master[j].name == old(master[j].name) && master[j].fileName == old(master[j].fileName)
          && master[j].template == (if j < i && loaded[j].Some? then loaded[j] else old(master[j].template))
        invariant calibration == old(calibration)
      {
        if loaded[i].Some? {
          master := master[i := master[i].(template := loaded[i])];
        }
      }
      templates := ui;
    }

    /** `setCalibrationData`. */
    method SetCalibration(data: CalibrationData)
      modifies this
      ensures calibration == data
      ensures master == old(master) && templates == old(templates)
    {
      calibration := data;
    }

    /** `resetIdentification`: every slot becomes empty. */
    method ResetIdentification()
      requires Valid()
      modifies names
      ensures forall i :: 0 <= i < SlotCount ==> names[i].None?
      ensures !AllIdentified(names[..])
    {
      forall i | 0 <= i < SlotCount {
        names[i] := None;
      }
      AllIdentifiedIff(names[..]);
      assert names[..][0].None?;
    }

    /** `isAllIdentified`. */
    function IsAllIdentified(): (r: bool)
      requires Valid()
      reads this, names
      ensures r <==> forall i :: 0 <= i < SlotCount ==> names[i].Some?
    {
      AllIdentifiedIff(names[..]);
      AllIdentified(names[..])
    }

    /** `getCurrentResults`: the own slots and the enemy slots, "?" for an empty one. */
    function CurrentResults(): (r: (seq<string>, seq<string>))
      requires Valid()
      reads this, names
      ensures |r.0| == 4 && |r.1| == 4
      ensures forall i :: 0 <= i < 4 ==> r.0[i] == Shown(names[i]) && r.1[i] == Shown(names[i + 4])
    {
      (seq(4, i requires 0 <= i < 4 reads names => Shown(names[i])),
       seq(4, i requires 0 <= i < 4 reads names => Shown(names[i + 4])))
    }

    /**
     * `identifyStepByStep`: one pass over the eight slots; `threw` reports the exception that ends
     * the pass early (the slots bound before it stay bound).
     */
    method IdentifyStepByStep(cv: Cv, frame: Mat) returns (threw: bool)
      requires Valid()
      modifies names
      ensures PassResult(names[..], threw) == Pass(cv, frame, calibration, master, old(names[..]), SlotCount)
    {
      ghost var names0 := names[..];
      threw := false;
      var i := 0;
      while i < SlotCount
        invariant 0 <= i <= SlotCount && !threw
        invariant PassResult(names[..], false) == Pass(cv, frame, calibration, master, names0, i)
      {
        threw := VisitSlot(cv, frame, i, names0);
        if threw {
          PassEndsOnThrow(cv, frame, calibration, master, names0, i + 1, SlotCount);
          return;
        }
        i := i + 1;
      }
    }

    /** One iteration of the pass: an identified slot is passed over, an empty one is looked at. */
    method VisitSlot(cv: Cv, frame: Mat, i: nat, ghost names0: seq<Option<string>>) returns (threw: bool)
      requires Valid() && i < SlotCount && |names0| == SlotCount
      requires PassResult(names[..], false) == Pass(cv, frame, calibration, master, names0, i)
      modifies names
      ensures PassResult(names[..], threw) == Pass(cv, frame, calibration, master, names0, i + 1)
    {
      threw := false;
      if names[i].None? {
        var step := IdentifySlot(cv, frame, i);
        if step.SlotThrows? {
          threw := true;
        } else if step.SlotScored? && step.result.score > MonsterThreshold {
          names[i] := Some(step.result.name);
        }
      }
    }

    /** The body of the pass for one empty slot: its box, its crop, and the catalogue match. */
    method IdentifySlot(cv: Cv, frame: Mat, i: nat) returns (step: SlotStep)
      ensures step == SlotStepAt(cv, frame, calibration, master, i)
    {
      var box: BoxConfig;
      if i < 4 {
        if i >= |calibration.myPartyBoxes| {
          return SlotThrows;
        }
        box := calibration.myPartyBoxes[i];
      } else {
        if i - 4 >= |calibration.enemyPartyBoxes| {
          return SlotThrows;
        }
        box := calibration.enemyPartyBoxes[i - 4];
      }
      var crop := GetRawROI(frame, box);
      if crop.CropThrows? {
        return SlotThrows;
      }
      if crop.NoCrop? {
        return SlotSkipped;
      }
      var result := FindBestMonsterMatch(cv, crop.m, master, calibration.uiScale);
      return SlotScored(result);
    }
  }
}
