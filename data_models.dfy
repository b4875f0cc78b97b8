/**
 * The records the application stores and passes around, with their compiled-in defaults
 * (`DataModels.kt`). Kotlin `Float` coordinates are modelled as `real`.
 */
module DataModels {
  import opened Wrappers
  import opened Vision

  /** One entry of the monster catalogue; `template` is None when its asset failed to load. */
  datatype MonsterData = MonsterData(name: string, fileName: string, template: Option<Mat>)

  /** One concluded battle. The result is the text "WIN" or "LOSE" as written by the analyser. */
  datatype BattleRecord = BattleRecord(
    timestamp: string,
    result: string,
    partyIndex: int,
    myParty: seq<string>,
    enemyParty: seq<string>)

  /** A history file: the stored counters and the record list. */
  datatype BattleHistory = BattleHistory(totalWins: int, totalLosses: int, records: seq<BattleRecord>)

  /** Per-party statistics; rates are percentages. */
  datatype PartyStat = PartyStat(index: int, wins: int, losses: int, winRate: real, usageRate: real)

  datatype BattleStats = BattleStats(totalWins: int, totalLosses: int, winRate: real, partyStats: seq<PartyStat>)

  /** A region: centre as a fraction of the frame, size in pixels. */
  datatype BoxConfig = BoxConfig(centerX: real, centerY: real, width: int, height: int)

  datatype CalibrationData = CalibrationData(
    uiScale: real,
    vsBox: BoxConfig,
    myPartyBoxes: seq<BoxConfig>,
    enemyPartyBoxes: seq<BoxConfig>,
    partySelectBoxes: seq<BoxConfig>,
    winBox: BoxConfig,
    loseBox: BoxConfig)

  const WIN: string := "WIN"
  const LOSE: string := "LOSE"

  /** The reference screen the defaults are written against. */
  const RefWidth: real := 1080.0
  const RefHeight: real := 2364.0

  /** A box given in pixels of the 1080x2364 reference screen. */
  function RefBox(x: real, y: real, w: int, h: int): BoxConfig {
    BoxConfig(x / RefWidth, y / RefHeight, w, h)
  }

  /** `BattleHistory()`. */
  function NewHistory(): (h: BattleHistory)
    ensures h.records == [] && h.totalWins == 0 && h.totalLosses == 0
  {
    BattleHistory(0, 0, [])
  }

  /** `CalibrationData()`: the compiled-in defaults. */
  function DefaultCalibration(): CalibrationData {
    CalibrationData(
      1.0,
      RefBox(540.0, 1260.0, 280, 160),
      [RefBox(196.0, 1635.0, 80, 130), RefBox(391.0, 1635.0, 80, 130),
       RefBox(585.0, 1635.0, 80, 130), RefBox(780.0, 1635.0, 80, 130)],
      [RefBox(201.0, 915.0, 80, 130), RefBox(396.0, 915.0, 80, 130),
       RefBox(590.0, 915.0, 80, 130), RefBox(785.0, 915.0, 80, 130)],
      [RefBox(30.0, 1030.0, 50, 100), RefBox(30.0, 1430.0, 50, 100), RefBox(30.0, 1830.0, 50, 100)],
      RefBox(540.0, 720.0, 1000, 400),
      RefBox(540.0, 720.0, 1000, 400))
  }

  /** The centre lies on the screen and the size is positive. */
  predicate OnScreen(b: BoxConfig) {
    0.0 <= b.centerX <= 1.0 && 0.0 <= b.centerY <= 1.0 && b.width > 0 && b.height > 0
  }

  /** The fixed cardinalities: 4 own slots, 4 enemy slots, 3 party selectors. */
  predicate HasSlotCounts(d: CalibrationData) {
    |d.myPartyBoxes| == 4 && |d.enemyPartyBoxes| == 4 && |d.partySelectBoxes| == 3
  }

  /** Every box of the profile is on screen. */
  predicate AllOnScreen(d: CalibrationData) {
    && OnScreen(d.vsBox) && OnScreen(d.winBox) && OnScreen(d.loseBox)
    && (forall i :: 0 <= i < |d.myPartyBoxes| ==> OnScreen(d.myPartyBoxes[i]))
    && (forall i :: 0 <= i < |d.enemyPartyBoxes| ==> OnScreen(d.enemyPartyBoxes[i]))
    && (forall i :: 0 <= i < |d.partySelectBoxes| ==> OnScreen(d.partySelectBoxes[i]))
  }

  /** The defaults have the fixed cardinalities, scale 1, every box on screen, and one result box. */
  lemma DefaultCalibrationShape()
    ensures HasSlotCounts(DefaultCalibration())
    ensures DefaultCalibration().uiScale == 1.0
    ensures AllOnScreen(DefaultCalibration())
    ensures DefaultCalibration().winBox == DefaultCalibration().loseBox
  {
  }

  /** Number of records whose result text is `r`. */
  function CountResult(rs: seq<BattleRecord>, r: string): (n: nat)
    ensures n <= |rs|
    decreases |rs|
  {
    if rs == [] then 0
    else CountResult(rs[..|rs| - 1], r) + (if rs[|rs| - 1].result == r then 1 else 0)
  }

  /** Every record's result is WIN or LOSE (what the analyser produces). */
  predicate WinLoseOnly(rs: seq<BattleRecord>) {
    forall i :: 0 <= i < |rs| ==> rs[i].result == WIN || rs[i].result == LOSE
  }

  /** The stored counters agree with the record list. */
  predicate Consistent(h: BattleHistory) {
    h.totalWins == CountResult(h.records, WIN) && h.totalLosses == CountResult(h.records, LOSE)
  }

  /** With WIN/LOSE results only, the two counts add up to the number of records. */
  lemma {:induction false} CountsPartition(rs: seq<BattleRecord>)
    requires WinLoseOnly(rs)
    ensures CountResult(rs, WIN) + CountResult(rs, LOSE) == |rs|
    decreases |rs|
  {
    if rs != [] {
      CountsPartition(rs[..|rs| - 1]);
    }
  }

  /** Counting distributes over concatenation. */
  lemma {:induction false} CountAppend(a: seq<BattleRecord>, b: seq<BattleRecord>, r: string)
    ensures CountResult(a + b, r) == CountResult(a, r) + CountResult(b, r)
    decreases |b|
  {
    if b == [] {
      assert a + b == a;
    } else {
      CountAppend(a, b[..|b| - 1], r);
      assert (a + b)[..|a + b| - 1] == a + b[..|b| - 1];
    }
  }

  /** The count of one record. */
  lemma CountSingle(x: BattleRecord, r: string)
    ensures CountResult([x], r) == if x.result == r then 1 else 0
  {
    assert [x][..0] == [];
  }

  /** A fresh history is consistent. */
  lemma NewHistoryConsistent()
    ensures Consistent(NewHistory())
  {
  }
}
