/**
 * `BattleDataManager.kt`: the open history file (its name and its contents), appending a
 * concluded battle, loading, saving and clearing a file, and the statistics shown on the history
 * screen and in the CSV export.
 */
module BattleData {
  import opened Wrappers
  import opened DataModels
  import opened Storage

  /** The history after appending `rec`: the counter of its result goes up (LOSE for any result but WIN). */
  function WithRecord(h: BattleHistory, rec: BattleRecord): (r: BattleHistory)
    ensures r.records == h.records + [rec]
    ensures if rec.result == WIN
      then r.totalWins == h.totalWins + 1 && r.totalLosses == h.totalLosses
      else r.totalWins == h.totalWins && r.totalLosses == h.totalLosses + 1
  {
    if rec.result == WIN then BattleHistory(h.totalWins + 1, h.totalLosses, h.records + [rec])
    else BattleHistory(h.totalWins, h.totalLosses + 1, h.records + [rec])
  }

  /** Appending a WIN or LOSE record to a consistent history keeps it consistent. */
  lemma WithRecordConsistent(h: BattleHistory, rec: BattleRecord)
    requires Consistent(h) && (rec.result == WIN || rec.result == LOSE)
    ensures Consistent(WithRecord(h, rec))
    ensures WinLoseOnly(h.records) ==> WinLoseOnly(WithRecord(h, rec).records)
  {
    CountAppend(h.records, [rec], WIN);
    CountAppend(h.records, [rec], LOSE);
    CountSingle(rec, WIN);
    CountSingle(rec, LOSE);
  }

  /** What a result other than WIN or LOSE does: it is counted as a loss, yet no LOSE record is added. */
  lemma OtherResultBreaksConsistency(h: BattleHistory, rec: BattleRecord)
    requires Consistent(h) && rec.result != WIN && rec.result != LOSE
    ensures !Consistent(WithRecord(h, rec))
  {
    CountAppend(h.records, [rec], LOSE);
    CountSingle(rec, LOSE);
  }

  /** The name of the open file before any is loaded. */
  const InitialFileName: string := "default_stats"

  class DataManager {
    var currentFileName: string
    var history: BattleHistory
    const monsterMaster: seq<MonsterData>
    const disk: Disk

    /**
     * A new manager: the catalogue read from the asset `monsters.json` (None when it cannot be
     * read or parsed, which leaves the catalogue empty) and an empty history.
     */
    constructor (disk: Disk, catalogue: Option<seq<MonsterData>>)
      ensures this.disk == disk && monsterMaster == catalogue.GetOr([])
      ensures currentFileName == InitialFileName && history == NewHistory()
    {
      this.disk := disk;
      monsterMaster := catalogue.GetOr([]);
      currentFileName := InitialFileName;
      history := NewHistory();
    }

    /** `saveHistory`: the open history is written to its file. */
    method SaveHistory()
      modifies disk
      ensures disk.files == old(disk.files)[JsonName(currentFileName) := history]
      ensures disk.lastFileName == old(disk.lastFileName) && disk.calibration == old(disk.calibration)
    {
      disk.files := disk.files[JsonName(currentFileName) := history];
    }

    /** `addRecord`: one record appended, its counter raised, and the file saved. */
    method AddRecord(result: string, myParty: seq<string>, enemyParty: seq<string>, partyIndex: int, timestamp: string)
      modifies this, disk
      ensures history == WithRecord(old(history), BattleRecord(timestamp, result, partyIndex, myParty, enemyParty))
      ensures currentFileName == old(currentFileName)
      ensures disk.files == old(disk.files)[JsonName(currentFileName) := history]
      ensures disk.lastFileName == old(disk.lastFileName) && disk.calibration == old(disk.calibration)
    {
      if result == WIN {
        history := history.(totalWins := history.totalWins + 1);
      } else {
        history := history.(totalLosses := history.totalLosses + 1);
      }
      history := history.(records := history.records + [BattleRecord(timestamp, result, partyIndex, myParty, enemyParty)]);
      SaveHistory();
    }

    /** `loadHistory`: the name is always taken; a missing file gives a fresh, empty history. */
    method LoadHistory(fileName: string)
      modifies this
      ensures currentFileName == fileName
      ensures JsonName(fileName) in disk.files ==> history == disk.files[JsonName(fileName)]
      ensures JsonName(fileName) !in disk.files ==> history == NewHistory()
    {
      currentFileName := fileName;
      if JsonName(fileName) in disk.files {
        history := disk.files[JsonName(fileName)];
      } else {
        history := NewHistory();
      }
    }

    /** `resetHistory`: the open file is cleared, on disk too. */
    method ResetHistory()
      modifies this, disk
      ensures history == NewHistory() && currentFileName == old(currentFileName)
      ensures disk.files == old(disk.files)[JsonName(currentFileName) := NewHistory()]
      ensures disk.lastFileName == old(disk.lastFileName) && disk.calibration == old(disk.calibration)
    {
      history := NewHistory();
      SaveHistory();
    }
  }

  // ---------------------------------------------------------------------------------------
  // getStatistics

  /** `a.toDouble() / b * 100`, or 0.0 when `b` is 0. */
  function Rate(num: int, den: int): real {
    if den > 0 then (num as real / den as real) * 100.0 else 0.0
  }

  /** A rate of a part of a whole is a percentage; the whole's own rate is 100 and an empty whole's is 0. */
  lemma RateBounds(num: int, den: int)
    requires 0 <= num <= den
    ensures 0.0 <= Rate(num, den) <= 100.0
    ensures den == 0 ==> Rate(num, den) == 0.0
    ensures den > 0 ==> Rate(num, den) * den as real == num as real * 100.0
  {
    if den > 0 {
      var q := num as real / den as real;
      assert q * den as real == num as real;
      assert num as real <= den as real;
    }
  }

  /** The records played with party `idx` (`records.filter { it.partyIndex == idx }`). */
  function PartyRecords(rs: seq<BattleRecord>, idx: int): (p: seq<BattleRecord>)
    ensures |p| <= |rs|
    ensures forall k :: 0 <= k < |p| ==> p[k].partyIndex == idx
    ensures forall k :: 0 <= k < |rs| && rs[k].partyIndex == idx ==> rs[k] in p
    ensures multiset(p) <= multiset(rs)
    decreases |rs|
  {
    if rs == [] then []
    else
      var init := rs[..|rs| - 1];
      assert rs == init + [rs[|rs| - 1]];
      PartyRecords(init, idx) + (if rs[|rs| - 1].partyIndex == idx then [rs[|rs| - 1]] else [])
  }

  /** The statistics of party `idx`: wins and losses among its records, its win rate and its share of all battles. */
  function PartyStatOf(rs: seq<BattleRecord>, idx: int): PartyStat {
    var p := PartyRecords(rs, idx);
    PartyStat(idx, CountResult(p, WIN), CountResult(p, LOSE), Rate(CountResult(p, WIN), |p|), Rate(|p|, |rs|))
  }

  /** `getStatistics`: totals counted from the records (the stored counters are not read) and parties 0, 1, 2. */
  function Statistics(h: BattleHistory): (s: BattleStats)
    ensures |s.partyStats| == 3
    ensures forall i :: 0 <= i < 3 ==> s.partyStats[i] == PartyStatOf(h.records, i)
  {
    var rs := h.records;
    BattleStats(CountResult(rs, WIN), CountResult(rs, LOSE), Rate(CountResult(rs, WIN), |rs|),
                [PartyStatOf(rs, 0), PartyStatOf(rs, 1), PartyStatOf(rs, 2)])
  }

  /** Wins and losses are different records, so together they are at most all of them. */
  lemma {:induction false} WinsAndLossesAtMost(rs: seq<BattleRecord>)
    ensures CountResult(rs, WIN) + CountResult(rs, LOSE) <= |rs|
    decreases |rs|
  {
    if rs != [] {
      WinsAndLossesAtMost(rs[..|rs| - 1]);
    }
  }

  /** Number of records that belong to none of the parties 0, 1, 2 (such as the -1 of an undetected party). */
  function Unassigned(rs: seq<BattleRecord>): (n: nat)
    decreases |rs|
  {
    if rs == [] then 0
    else Unassigned(rs[..|rs| - 1]) + (if 0 <= rs[|rs| - 1].partyIndex <= 2 then 0 else 1)
  }

  /** Every record falls in exactly one of the three parties or in none of them. */
  lemma {:induction false} PartiesPartition(rs: seq<BattleRecord>)
    ensures |PartyRecords(rs, 0)| + |PartyRecords(rs, 1)| + |PartyRecords(rs, 2)| + Unassigned(rs) == |rs|
    ensures Unassigned(rs) == 0 <==> forall k :: 0 <= k < |rs| ==> 0 <= rs[k].partyIndex <= 2
    decreases |rs|
  {
    if rs != [] {
      var init, last := rs[..|rs| - 1], rs[|rs| - 1];
      PartiesPartition(init);
      assert |PartyRecords(rs, 0)| == |PartyRecords(init, 0)| + (if last.partyIndex == 0 then 1 else 0);
      assert |PartyRecords(rs, 1)| == |PartyRecords(init, 1)| + (if last.partyIndex == 1 then 1 else 0);
      assert |PartyRecords(rs, 2)| == |PartyRecords(init, 2)| + (if last.partyIndex == 2 then 1 else 0);
      UnassignedSnoc(rs);
    }
  }

  /** The records outside the parties are none exactly when the first ones are none and the last is in a party. */
  lemma UnassignedSnoc(rs: seq<BattleRecord>)
    requires rs != []
    ensures var init := rs[..|rs| - 1];
      (forall k :: 0 <= k < |rs| ==> 0 <= rs[k].partyIndex <= 2) <==>
      (forall k :: 0 <= k < |init| ==> 0 <= init[k].partyIndex <= 2) && 0 <= rs[|rs| - 1].partyIndex <= 2
  {
    var init := rs[..|rs| - 1];
    assert forall k :: 0 <= k < |init| ==> init[k] == rs[k];
  }

  /**
   * What the statistics promise: the totals are the WIN and LOSE records; each party's wins and
   * losses are at most its battles; every rate is a percentage; the parties' battles add up to at
   * most all battles, exactly all of them when every record names party 0, 1 or 2.
   */
  lemma StatisticsFacts(h: BattleHistory)
    ensures var s := Statistics(h);
      && s.totalWins == CountResult(h.records, WIN) && s.totalLosses == CountResult(h.records, LOSE)
      && s.totalWins + s.totalLosses <= |h.records|
      && 0.0 <= s.winRate <= 100.0
      && (forall i :: 0 <= i < 3 ==>
            && s.partyStats[i].index == i
            && s.partyStats[i].wins + s.partyStats[i].losses <= |PartyRecords(h.records, i)|
            && 0.0 <= s.partyStats[i].winRate <= 100.0
            && 0.0 <= s.partyStats[i].usageRate <= 100.0)
      && |PartyRecords(h.records, 0)| + |PartyRecords(h.records, 1)| + |PartyRecords(h.records, 2)| <= |h.records|
      && (|PartyRecords(h.records, 0)| + |PartyRecords(h.records, 1)| + |PartyRecords(h.records, 2)| == |h.records|
          <==> forall k :: 0 <= k < |h.records| ==> 0 <= h.records[k].partyIndex <= 2)
  {
    var rs := h.records;
    WinsAndLossesAtMost(rs);
    RateBounds(CountResult(rs, WIN), |rs|);
    forall i | 0 <= i < 3
      ensures var p := PartyRecords(rs, i);
        && CountResult(p, WIN) + CountResult(p, LOSE) <= |p|
        && 0.0 <= Rate(CountResult(p, WIN), |p|) <= 100.0
        && 0.0 <= Rate(|p|, |rs|) <= 100.0
    {
      var p := PartyRecords(rs, i);
      WinsAndLossesAtMost(p);
      RateBounds(CountResult(p, WIN), |p|);
      RateBounds(|p|, |rs|);
    }
    PartiesPartition(rs);
  }
}
