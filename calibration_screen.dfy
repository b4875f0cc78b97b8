/**
 * The calibration screen (`CalibrationActivity.kt`): the stored profile shown as editable boxes
 * for one mode, the boxes written back into the profile, and the boxes proposed by the
 * analyser's auto-calibration.
 */
module CalibrationScreen {
  import opened Wrappers
  import opened Selection
  import opened Sorting
  import opened Vision
  import opened DataModels
  import opened Storage
  import opened Searches
  import opened PartyCalibration
  import opened BattleAnalyzer

  /** What the screen calibrates (`EXTRA_MODE`). */
  datatype Mode = PartyMode | VsMode | WinMode | LoseMode | OtherMode

  function ModeOf(extra: string): Mode {
    if extra == "party" then PartyMode
    else if extra == "vs" then VsMode
    else if extra == "win" then WinMode
    else if extra == "lose" then LoseMode
    else OtherMode
  }

  /** A box of the calibration view; its caption is left out. */
  datatype CalibrationBox = CalibrationBox(id: int, centerX: real, centerY: real, width: int, height: int)

  function ToBox(id: int, b: BoxConfig): CalibrationBox {
    CalibrationBox(id, b.centerX, b.centerY, b.width, b.height)
  }

  function ToConfig(c: CalibrationBox): BoxConfig {
    BoxConfig(c.centerX, c.centerY, c.width, c.height)
  }

  /** `mapIndexed`: the boxes numbered from `base`. */
  function Numbered(bs: seq<BoxConfig>, base: int): (cs: seq<CalibrationBox>)
    ensures |cs| == |bs|
    ensures forall i :: 0 <= i < |bs| ==> cs[i].id == base + i && ToConfig(cs[i]) == bs[i]
  {
    seq(|bs|, i requires 0 <= i < |bs| => ToBox(base + i, bs[i]))
  }

  /** `map { BoxConfig(...) }`. */
  function Configs(cs: seq<CalibrationBox>): (bs: seq<BoxConfig>)
    ensures |bs| == |cs|
    ensures forall i :: 0 <= i < |cs| ==> bs[i] == ToConfig(cs[i])
  {
    seq(|cs|, i requires 0 <= i < |cs| => ToConfig(cs[i]))
  }

  /** Numbering and converting back gives the boxes. */
  lemma ConfigsOfNumbered(bs: seq<BoxConfig>, base: int)
    ensures Configs(Numbered(bs, base)) == bs
  {
  }

  /** The "vs" list: the VS box as id 0, the enemy boxes from id 10, then the own boxes from id 20. */
  function VsList(d: CalibrationData): seq<CalibrationBox> {
    [ToBox(0, d.vsBox)] + Numbered(d.enemyPartyBoxes, 10) + Numbered(d.myPartyBoxes, 20)
  }

  /** `displayBoxes`: the boxes shown for a mode. */
  function Displayed(d: CalibrationData, mode: Mode): seq<CalibrationBox> {
    match mode
    case PartyMode => Numbered(d.partySelectBoxes, 0)
    case VsMode => VsList(d)
    case WinMode => [ToBox(0, d.winBox)]
    case LoseMode => [ToBox(0, d.loseBox)]
    case OtherMode => []
  }

  /** The id scheme outside "vs": party selectors from 0; one box with id 0 for "win" and "lose"; nothing otherwise. */
  lemma DisplayedIds(d: CalibrationData, mode: Mode)
    requires mode != VsMode
    ensures var bs := Displayed(d, mode);
      && (mode == PartyMode ==> |bs| == |d.partySelectBoxes| && forall i :: 0 <= i < |bs| ==> bs[i].id == i)
      && (mode == WinMode ==> bs == [ToBox(0, d.winBox)])
      && (mode == LoseMode ==> bs == [ToBox(0, d.loseBox)])
      && (mode == OtherMode ==> bs == [])
  {
  }

  /**
   * The "vs" id scheme: 0 for the VS box, then 10, 11, ... for the enemy boxes, then 20, 21, ...
   * for the own boxes; the default profile shows 9 boxes.
   */
  lemma VsListIds(d: CalibrationData)
    ensures var bs := VsList(d);
      && |bs| == 1 + |d.enemyPartyBoxes| + |d.myPartyBoxes|
      && bs[0] == ToBox(0, d.vsBox)
      && (forall i :: 0 <= i < |d.enemyPartyBoxes| ==> bs[1 + i] == ToBox(10 + i, d.enemyPartyBoxes[i]))
      && (forall i :: 0 <= i < |d.myPartyBoxes| ==> bs[1 + |d.enemyPartyBoxes| + i] == ToBox(20 + i, d.myPartyBoxes[i]))
      && (HasSlotCounts(d) ==> |bs| == 9)
  {
    var bs := VsList(d);
    var e := Numbered(d.enemyPartyBoxes, 10);
    var m := Numbered(d.myPartyBoxes, 20);
    assert bs == [ToBox(0, d.vsBox)] + e + m;
    forall i | 0 <= i < |d.enemyPartyBoxes|
      ensures bs[1 + i] == ToBox(10 + i, d.enemyPartyBoxes[i])
    {
      assert bs[1 + i] == e[i];
    }
    forall i | 0 <= i < |d.myPartyBoxes|
      ensures bs[1 + |d.enemyPartyBoxes| + i] == ToBox(20 + i, d.myPartyBoxes[i])
    {
      assert bs[1 + |e| + i] == m[i];
    }
  }

  /** `find { it.id == id }`: the first box with that id. */
  function FindId(cs: seq<CalibrationBox>, id: int): (r: Option<CalibrationBox>)
    ensures r.None? <==> forall i :: 0 <= i < |cs| ==> cs[i].id != id
    ensures r.Some? ==> r.value.id == id
    ensures r.Some? ==> exists i :: 0 <= i < |cs| && cs[i] == r.value && (forall j :: 0 <= j < i ==> cs[j].id != id)
    decreases |cs|
  {
    if cs == [] then None
    else if cs[0].id == id then Some(cs[0])
    else
      var r := FindId(cs[1..], id);
      if r.Some? then
        var i :| 0 <= i < |cs[1..]| && cs[1..][i] == r.value && (forall j :: 0 <= j < i ==> cs[1..][j].id != id);
        assert cs[i + 1] == r.value;
        r
      else r
  }

  /** `filter { it.id in lo..hi }`. */
  function WithIds(cs: seq<CalibrationBox>, lo: int, hi: int): seq<CalibrationBox>
    decreases |cs|
  {
    if cs == [] then [] else Keep(cs[0], lo, hi) + WithIds(cs[1..], lo, hi)
  }

  function Keep(c: CalibrationBox, lo: int, hi: int): seq<CalibrationBox> {
    if lo <= c.id <= hi then [c] else []
  }

  lemma {:induction false} WithIdsAppend(a: seq<CalibrationBox>, b: seq<CalibrationBox>, lo: int, hi: int)
    ensures WithIds(a + b, lo, hi) == WithIds(a, lo, hi) + WithIds(b, lo, hi)
    decreases |a|
  {
    if a == [] {
      assert a + b == b;
    } else {
      WithIdsAppend(a[1..], b, lo, hi);
      var k := Keep(a[0], lo, hi);
      assert (a + b)[0] == a[0] && (a + b)[1..] == a[1..] + b;
      calc {
        WithIds(a + b, lo, hi);
        k + WithIds(a[1..] + b, lo, hi);
        k + (WithIds(a[1..], lo, hi) + WithIds(b, lo, hi));
        (k + WithIds(a[1..], lo, hi)) + WithIds(b, lo, hi);
        WithIds(a, lo, hi) + WithIds(b, lo, hi);
      }
    }
  }

  /** Ids all inside the range are all kept. */
  lemma {:induction false} WithIdsAll(cs: seq<CalibrationBox>, lo: int, hi: int)
    requires forall i :: 0 <= i < |cs| ==> lo <= cs[i].id <= hi
    ensures WithIds(cs, lo, hi) == cs
    decreases |cs|
  {
    if cs != [] {
      WithIdsAll(cs[1..], lo, hi);
      assert cs == [cs[0]] + cs[1..];
    }
  }

  /** Ids all outside the range are all dropped. */
  lemma {:induction false} WithIdsNone(cs: seq<CalibrationBox>, lo: int, hi: int)
    requires forall i :: 0 <= i < |cs| ==> !(lo <= cs[i].id <= hi)
    ensures WithIds(cs, lo, hi) == []
    decreases |cs|
  {
    if cs != [] {
      WithIdsNone(cs[1..], lo, hi);
    }
  }

  /**
   * `saveChanges` as a function of the loaded profile: None (nothing saved) for an empty list, or in
   * "vs" mode without a box of id 0; otherwise the profile with `uiScale` and the mode's boxes
   * replaced.
   */
  function Saved(d: CalibrationData, mode: Mode, scale: real, cs: seq<CalibrationBox>): (r: Option<CalibrationData>)
    ensures r.None? <==> cs == [] || (mode == VsMode && forall i :: 0 <= i < |cs| ==> cs[i].id != 0)
    ensures r.Some? ==> r.value.uiScale == scale
    ensures r.Some? && mode != PartyMode ==> r.value.partySelectBoxes == d.partySelectBoxes
    ensures r.Some? && mode != VsMode ==>
      r.value.vsBox == d.vsBox && r.value.enemyPartyBoxes == d.enemyPartyBoxes && r.value.myPartyBoxes == d.myPartyBoxes
    ensures r.Some? && mode != WinMode ==> r.value.winBox == d.winBox
    ensures r.Some? && mode != LoseMode ==> r.value.loseBox == d.loseBox
    ensures r.Some? && mode == PartyMode ==>
      |r.value.partySelectBoxes| == |cs| && forall i :: 0 <= i < |cs| ==> r.value.partySelectBoxes[i] == ToConfig(cs[i])
    ensures r.Some? && mode == WinMode ==> r.value.winBox == ToConfig(cs[0])
    ensures r.Some? && mode == LoseMode ==> r.value.loseBox == ToConfig(cs[0])
  {
    if cs == [] then None
    else
      var data := d.(uiScale := scale);
      match mode
      case PartyMode => Some(data.(partySelectBoxes := Configs(cs)))
      case VsMode =>
        (match FindId(cs, 0)
         case None => None
         case Some(vs) =>
           Some(data.(vsBox := ToConfig(vs),
                      enemyPartyBoxes := Configs(WithIds(cs, 10, 13)),
                      myPartyBoxes := Configs(WithIds(cs, 20, 23)))))
      case WinMode => Some(data.(winBox := ToConfig(cs[0])))
      case LoseMode => Some(data.(loseBox := ToConfig(cs[0])))
      case OtherMode => Some(data)
  }

  /** In "vs" mode the saved lists are the boxes with ids 10..13 and 20..23, in list order. */
  lemma SavedVs(d: CalibrationData, scale: real, cs: seq<CalibrationBox>)
    requires Saved(d, VsMode, scale, cs).Some?
    ensures var r := Saved(d, VsMode, scale, cs).value;
      && r.vsBox == ToConfig(FindId(cs, 0).value)
      && r.enemyPartyBoxes == Configs(WithIds(cs, 10, 13))
      && r.myPartyBoxes == Configs(WithIds(cs, 20, 23))
  {
  }

  /** Filtering three pieces of a list. */
  lemma WithIds3(a: seq<CalibrationBox>, b: seq<CalibrationBox>, c: seq<CalibrationBox>, lo: int, hi: int)
    ensures WithIds(a + b + c, lo, hi) == WithIds(a, lo, hi) + WithIds(b, lo, hi) + WithIds(c, lo, hi)
  {
    WithIdsAppend(a + b, c, lo, hi);
    WithIdsAppend(a, b, lo, hi);
  }

  /** The enemy boxes read back from the "vs" list, when there are at most 4 of them. */
  lemma VsListEnemies(d: CalibrationData)
    requires |d.enemyPartyBoxes| <= 4
    ensures WithIds(VsList(d), 10, 13) == Numbered(d.enemyPartyBoxes, 10)
  {
    var head := [ToBox(0, d.vsBox)];
    var e := Numbered(d.enemyPartyBoxes, 10);
    var m := Numbered(d.myPartyBoxes, 20);
    WithIds3(head, e, m, 10, 13);
    WithIdsNone(head, 10, 13);
    WithIdsAll(e, 10, 13);
    WithIdsNone(m, 10, 13);
    assert WithIds(VsList(d), 10, 13) == [] + e + [];
  }

  /** The own boxes read back from the "vs" list, when there are at most 4 of them (and at most 10 enemy boxes). */
  lemma VsListMine(d: CalibrationData)
    requires |d.enemyPartyBoxes| <= 10 && |d.myPartyBoxes| <= 4
    ensures WithIds(VsList(d), 20, 23) == Numbered(d.myPartyBoxes, 20)
  {
    var head := [ToBox(0, d.vsBox)];
    var e := Numbered(d.enemyPartyBoxes, 10);
    var m := Numbered(d.myPartyBoxes, 20);
    WithIds3(head, e, m, 20, 23);
    WithIdsNone(head, 20, 23);
    WithIdsNone(e, 20, 23);
    WithIdsAll(m, 20, 23);
    assert WithIds(VsList(d), 20, 23) == [] + [] + m;
  }

  /**
   * The round trip: saving the boxes a profile is shown with, unedited, gives back that profile
   * with the screen's scale, when something is shown and (in "vs" mode) neither party list is
   * longer than 4.
   */
  lemma SaveDisplayedRoundTrip(d: CalibrationData, mode: Mode, scale: real)
    requires Displayed(d, mode) != []
    requires mode == VsMode ==> |d.enemyPartyBoxes| <= 4 && |d.myPartyBoxes| <= 4
    ensures Saved(d, mode, scale, Displayed(d, mode)) == Some(d.(uiScale := scale))
  {
    match mode
    case PartyMode =>
      ConfigsOfNumbered(d.partySelectBoxes, 0);
    case VsMode =>
      assert VsList(d)[0] == ToBox(0, d.vsBox);
      VsListEnemies(d);
      VsListMine(d);
      ConfigsOfNumbered(d.enemyPartyBoxes, 10);
      ConfigsOfNumbered(d.myPartyBoxes, 20);
    case WinMode =>
    case LoseMode =>
    case OtherMode =>
  }

  /** Past four boxes the round trip loses the rest: only ids 10..13 are read back. */
  lemma SaveDisplayedKeepsFirstFourEnemies(d: CalibrationData, scale: real)
    requires |d.enemyPartyBoxes| > 4
    ensures Saved(d, VsMode, scale, Displayed(d, VsMode)).value.enemyPartyBoxes == d.enemyPartyBoxes[..4]
  {
    var head := [ToBox(0, d.vsBox)];
    var e := d.enemyPartyBoxes;
    var m := Numbered(d.myPartyBoxes, 20);
    var e1, e2 := Numbered(e[..4], 10), Numbered(e[4..], 14);
    assert Numbered(e, 10) == e1 + e2;
    assert VsList(d) == head + (e1 + e2) + m;
    WithIds3(head, e1 + e2, m, 10, 13);
    WithIdsAppend(e1, e2, 10, 13);
    WithIdsNone(head, 10, 13);
    WithIdsAll(e1, 10, 13);
    WithIdsNone(e2, 10, 13);
    WithIdsNone(m, 10, 13);
    assert WithIds(VsList(d), 10, 13) == e1;
    ConfigsOfNumbered(e[..4], 10);
  }

  // ---------------------------------------------------------------------------------------
  // Auto-calibration results

  /** The party proposal: the three selector boxes numbered from 0, with their scale. */
  function AutoParty(cv: Cv, scene: Mat, select: Option<Mat>): Outcome<Option<(seq<CalibrationBox>, real)>>
    requires scene.Cols() >= 1 && scene.Rows() >= 1
  {
    match AutoCalibratePartyResult(cv, scene, select)
    case Threw => Threw
    case Done(None) => Done(None)
    case Done(Some((configs, s))) => Done(Some((Numbered(configs, 0), s)))
  }

  /** The "vs" proposal: the auto-calibrated profile's boxes in the display scheme, with its scale. */
  function AutoVs(cv: Cv, scene: Mat, vsTemplate: Option<Mat>, master: seq<MonsterData>): Option<(seq<CalibrationBox>, real)>
    requires scene.Cols() >= 1 && scene.Rows() >= 1
  {
    var vs := ScaleSearch(cv, scene, vsTemplate, false, 0.3, 0.7);
    if vs.None? then None
    else
      var profile := BattleSceneProfile(cv, scene, master, vs.value);
      Some((VsList(profile), profile.uiScale))
  }

  /** The result-banner proposal: the banner found in the upper half (colour) as box 0; the scale is kept. */
  function AutoBanner(cv: Cv, scene: Mat, template: Option<Mat>, scale: real): Option<(seq<CalibrationBox>, real)>
    requires scene.Rows() >= 1
  {
    var found := ScaleSearch(cv, scene, template, false, 0.0, 0.5);
    if found.None? then None else Some(([ToBox(0, found.value.config)], scale))
  }

  /** What `runAutoCalibration` proposes for a mode, with the scale to adopt; None for no proposal. */
  function AutoResult(cv: Cv, mode: Mode, scene: Mat, t: Templates, master: seq<MonsterData>, scale: real)
    : Outcome<Option<(seq<CalibrationBox>, real)>>
    requires scene.Cols() >= 1 && scene.Rows() >= 1
  {
    match mode
    case PartyMode => AutoParty(cv, scene, t.select)
    case VsMode => Done(AutoVs(cv, scene, t.vs, master))
    case WinMode => Done(AutoBanner(cv, scene, t.win, scale))
    case LoseMode => Done(AutoBanner(cv, scene, t.lose, scale))
    case OtherMode => Done(None)
  }

  /** The party proposal holds the three found boxes, top to bottom, numbered 0, 1, 2, with their scale. */
  lemma AutoPartyProposal(cv: Cv, scene: Mat, select: Option<Mat>, configs: seq<BoxConfig>, scale: real)
    requires scene.Cols() >= 1 && scene.Rows() >= 1
    requires AutoCalibratePartyResult(cv, scene, select) == Done(Some((configs, scale)))
    ensures AutoParty(cv, scene, select) == Done(Some((Numbered(configs, 0), scale)))
    ensures |configs| == 3 && SortedBy(configs, CenterY)
  {
    AutoCalibratePartyBoxes(cv, scene, select.value, (configs, scale));
  }

  /** Accepting a party proposal and saving stores its boxes and scale; nothing else of the loaded profile changes. */
  lemma SavePartyProposal(d: CalibrationData, configs: seq<BoxConfig>, scale: real)
    requires configs != []
    ensures Saved(d, PartyMode, scale, Numbered(configs, 0)) == Some(d.(uiScale := scale, partySelectBoxes := configs))
  {
    ConfigsOfNumbered(configs, 0);
  }

  /** The "vs" proposal is the auto-calibrated profile in the display scheme: 9 boxes, with the found scale. */
  lemma AutoVsProposal(cv: Cv, scene: Mat, vsTemplate: Option<Mat>, master: seq<MonsterData>, vs: ScanResult)
    requires scene.Cols() >= 1 && scene.Rows() >= 1
    requires ScaleSearch(cv, scene, vsTemplate, false, 0.3, 0.7) == Some(vs)
    ensures var p := BattleSceneProfile(cv, scene, master, vs);
      && AutoVs(cv, scene, vsTemplate, master) == Some((VsList(p), vs.scale))
      && p.uiScale == vs.scale && p.vsBox == vs.config
      && |VsList(p)| == 9
  {
  }

  /**
   * Accepting a "vs" proposal of a profile with 4 + 4 slots and saving stores its VS box, its
   * slot boxes and its scale; the party selectors and result boxes of the loaded profile stay.
   */
  lemma SaveVsProposal(d: CalibrationData, p: CalibrationData)
    requires HasSlotCounts(p)
    ensures Saved(d, VsMode, p.uiScale, VsList(p))
      == Some(d.(uiScale := p.uiScale, vsBox := p.vsBox, enemyPartyBoxes := p.enemyPartyBoxes, myPartyBoxes := p.myPartyBoxes))
  {
    var q := d.(vsBox := p.vsBox, enemyPartyBoxes := p.enemyPartyBoxes, myPartyBoxes := p.myPartyBoxes);
    assert VsList(q) == VsList(p);
    SaveDisplayedRoundTrip(q, VsMode, p.uiScale);
  }

  /** The result-banner proposal is the found box as box 0, with the screen's scale kept. */
  lemma AutoBannerProposal(cv: Cv, scene: Mat, template: Option<Mat>, found: ScanResult, scale: real)
    requires scene.Rows() >= 1
    requires ScaleSearch(cv, scene, template, false, 0.0, 0.5) == Some(found)
    ensures AutoBanner(cv, scene, template, scale) == Some(([ToBox(0, found.config)], scale))
  {
  }

  /** Saving a single box in a result mode stores it as that mode's box, with the screen's scale. */
  lemma SaveBanner(d: CalibrationData, box: BoxConfig, scale: real)
    ensures Saved(d, WinMode, scale, [ToBox(0, box)]) == Some(d.(uiScale := scale, winBox := box))
    ensures Saved(d, LoseMode, scale, [ToBox(0, box)]) == Some(d.(uiScale := scale, loseBox := box))
  {
  }

  /** The "vs" list, built with `add` as both `displayBoxes` and `runAutoCalibration` do. */
  method BuildVsList(d: CalibrationData) returns (list: seq<CalibrationBox>)
    ensures list == VsList(d)
  {
    list := [ToBox(0, d.vsBox)];
    var e := d.enemyPartyBoxes;
    for i := 0 to |e|
      invariant list == [ToBox(0, d.vsBox)] + Numbered(e[..i], 10)
    {
      assert Numbered(e[..i + 1], 10) == Numbered(e[..i], 10) + [ToBox(10 + i, e[i])];
      list := list + [ToBox(10 + i, e[i])];
    }
    assert e[..|e|] == e;
    var m := d.myPartyBoxes;
    for i := 0 to |m|
      invariant list == [ToBox(0, d.vsBox)] + Numbered(e, 10) + Numbered(m[..i], 20)
    {
      assert Numbered(m[..i + 1], 20) == Numbered(m[..i], 20) + [ToBox(20 + i, m[i])];
      list := list + [ToBox(20 + i, m[i])];
    }
    assert m[..|m|] == m;
  }

  /** `loadCalibrationData`: the stored profile, or the defaults when none is stored. */
  function LoadedCalibration(stored: Option<CalibrationData>): (d: CalibrationData)
    ensures stored.None? ==> HasSlotCounts(d) && d.uiScale == 1.0
  {
    DefaultCalibrationShape();
    stored.GetOr(DefaultCalibration())
  }

  /** The open screen: its mode, the screenshot, the scale to save and the boxes of the view. */
  class Screen {
    const mode: Mode
    const source: Mat
    const analyzer: Analyzer
    const disk: Disk
    var detectedScale: real
    var boxes: seq<CalibrationBox>

    /** `setupUI`: the stored profile (or the defaults) shown, and its scale taken. */
    constructor (mode: Mode, source: Mat, analyzer: Analyzer, disk: Disk)
      ensures this.mode == mode && this.source == source && this.analyzer == analyzer && this.disk == disk
      ensures detectedScale == LoadedCalibration(disk.calibration).uiScale
      ensures boxes == Displayed(LoadedCalibration(disk.calibration), mode)
    {
      this.mode := mode;
      this.source := source;
      this.analyzer := analyzer;
      this.disk := disk;
      var current := LoadedCalibration(disk.calibration);
      detectedScale := current.uiScale;
      new;
      DisplayBoxes(current);
    }

    /** `displayBoxes`. */
    method DisplayBoxes(d: CalibrationData)
      modifies this
      ensures boxes == Displayed(d, mode) && detectedScale == old(detectedScale)
    {
      match mode {
        case PartyMode => boxes := Numbered(d.partySelectBoxes, 0);
        case VsMode => boxes := BuildVsList(d);
        case WinMode => boxes := [ToBox(0, d.winBox)];
        case LoseMode => boxes := [ToBox(0, d.loseBox)];
        case OtherMode => boxes := [];
      }
    }

    /** The "default" button: the compiled-in profile shown, with its scale. */
    method RestoreDefaults()
      modifies this
      ensures detectedScale == 1.0 && boxes == Displayed(DefaultCalibration(), mode)
    {
      var defaultData := DefaultCalibration();
      detectedScale := defaultData.uiScale;
      DisplayBoxes(defaultData);
    }

    /** `saveChanges`: the profile stored when `Saved` gives one; `saved` is whether the screen closes. */
    method SaveChanges() returns (saved: bool)
      modifies disk
      ensures var s := Saved(LoadedCalibration(old(disk.calibration)), mode, detectedScale, boxes);
        && (saved <==> s.Some?)
        && disk.calibration == (if saved then s else old(disk.calibration))
      ensures disk.files == old(disk.files) && disk.lastFileName == old(disk.lastFileName)
    {
      var updatedBoxes := boxes;
      if updatedBoxes == [] {
        return false;
      }
      var data := LoadedCalibration(disk.calibration);
      data := data.(uiScale := detectedScale);
      match mode {
        case PartyMode =>
          data := data.(partySelectBoxes := Configs(updatedBoxes));
        case VsMode =>
          var vs := FindId(updatedBoxes, 0);
          if vs.None? {
            return false;
          }
          data := data.(vsBox := ToConfig(vs.value));
          data := data.(enemyPartyBoxes := Configs(WithIds(updatedBoxes, 10, 13)));
          data := data.(myPartyBoxes := Configs(WithIds(updatedBoxes, 20, 23)));
        case WinMode =>
          data := data.(winBox := ToConfig(updatedBoxes[0]));
        case LoseMode =>
          data := data.(loseBox := ToConfig(updatedBoxes[0]));
        case OtherMode =>
      }
      disk.calibration := Some(data);
      saved := true;
    }

    /**
     * `runAutoCalibration` on the screenshot: on a proposal the boxes and the scale are replaced,
     * on no proposal nothing changes. An exception from the analyser escapes the worker thread
     * uncaught and ends the app: `crashed` reports it, and the screen is then left as it was.
     */
    method RunAutoCalibration(cv: Cv) returns (crashed: bool)
      requires source.Cols() >= 1 && source.Rows() >= 1
      modifies this
      ensures var a := AutoResult(cv, mode, source, analyzer.templates, analyzer.master, old(detectedScale));
        && (crashed <==> a.Threw?)
        && if a.Done? && a.value.Some? then boxes == a.value.value.0 && detectedScale == a.value.value.1
           else boxes == old(boxes) && detectedScale == old(detectedScale)
    {
      crashed := false;
      var newScale := detectedScale;
      var results: Option<seq<CalibrationBox>> := None;
      match mode {
        case PartyMode =>
          var res := AutoCalibrateParty(cv, source, analyzer.templates.select);
          assert AutoResult(cv, mode, source, analyzer.templates, analyzer.master, old(detectedScale))
            == AutoParty(cv, source, analyzer.templates.select);
          if res.Threw? {
            return true;
          }
          if res.value.Some? {
            newScale := res.value.value.1;
            results := Some(Numbered(res.value.value.0, 0));
          }
        case VsMode =>
          var autoData := AutoCalibrateBattleScene(cv, source, analyzer.templates.vs, analyzer.master);
          if autoData.Some? {
            newScale := autoData.value.uiScale;
            var list := BuildVsList(autoData.value);
            results := Some(list);
          }
        case WinMode =>
          var resRes := FindTemplateGlobal(cv, source, analyzer.templates.win, false, 0.0, 0.5);
          if resRes.Some? {
            results := Some([ToBox(0, resRes.value.0)]);
          }
        case LoseMode =>
          var resRes := FindTemplateGlobal(cv, source, analyzer.templates.lose, false, 0.0, 0.5);
          if resRes.Some? {
            results := Some([ToBox(0, resRes.value.0)]);
          }
        case OtherMode =>
      }
      if results.Some? {
        detectedScale := newScale;
        boxes := results.value;
      }
    }
  }
}
