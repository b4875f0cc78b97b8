/**
 * The history screen (`HistoryActivity.kt`): the in-place edits of one record of the open
 * history (result toggle, deletion, insertion of a copy, party and monster corrections) and the
 * enemy ranking of the analysis dialog with its sort toggle.
 */
module HistoryScreen {
  import opened Wrappers
  import opened DataModels
  import opened Storage
  import opened BattleData
  import opened Sorting
  import opened MainScreen

  // ---------------------------------------------------------------------------------------
  // The file the screen opens

  /** The name `onCreate` falls back on when no file has been chosen. */
  const HistoryDefault: string := "battle_history"

  /** `onCreate` as written: the stored `last_file_name`, or "battle_history". */
  function ShownFileAsWritten(stored: Option<string>): (name: string)
    ensures stored.Some? ==> name == stored.value
    ensures stored.None? ==> name == HistoryDefault
  {
    stored.GetOr(HistoryDefault)
  }

  /**
   * Before any file has been chosen, the screen as written opens another file than the one the
   * capture service records battles into (`CurrentFileName`, "default_record").
   */
  lemma ShownFileAsWrittenMissesRecords()
    ensures JsonName(ShownFileAsWritten(None)) != JsonName(CurrentFileName(None))
  {
    assert JsonName(ShownFileAsWritten(None))[0] == 'b';
    assert JsonName(CurrentFileName(None))[0] == 'd';
  }

  /** The file the screen shows, with the fallback the main screen and the capture service use. */
  function ShownFile(stored: Option<string>): (name: string)
    ensures stored.Some? ==> name == stored.value
    ensures stored.None? ==> name == DefaultRecord
  {
    CurrentFileName(stored)
  }

  /**
   * `onCreate`: the history of the file in use is loaded, the file the capture service loads
   * and appends to, whether or not one has been chosen.
   */
  method Open(dm: DataManager)
    modifies dm
    ensures dm.currentFileName == CurrentFileName(dm.disk.lastFileName)
    ensures var f := JsonName(dm.currentFileName);
      dm.history == if f in dm.disk.files then dm.disk.files[f] else NewHistory()
  {
    dm.LoadHistory(ShownFile(dm.disk.lastFileName));
  }

  // ---------------------------------------------------------------------------------------
  // Counting over edited lists

  function Hit(x: BattleRecord, r: string): nat {
    if x.result == r then 1 else 0
  }

  /** The count of a list split around one record. */
  lemma CountSplit(a: seq<BattleRecord>, x: BattleRecord, b: seq<BattleRecord>, r: string)
    ensures CountResult(a + [x] + b, r) == CountResult(a, r) + Hit(x, r) + CountResult(b, r)
  {
    CountAppend(a + [x], b, r);
    CountAppend(a, [x], r);
    CountSingle(x, r);
  }

  // ---------------------------------------------------------------------------------------
  // The edits, as functions of the history

  /** `records[pos] = rec` (the list write of `updateAndSave`); the counters are not touched. */
  function Replaced(h: BattleHistory, pos: nat, rec: BattleRecord): (r: BattleHistory)
    requires pos < |h.records|
    ensures |r.records| == |h.records| && r.records[pos] == rec
    ensures forall i :: 0 <= i < |h.records| && i != pos ==> r.records[i] == h.records[i]
  {
    h.(records := h.records[pos := rec])
  }

  /** The result `toggleResult` writes: LOSE for a WIN, WIN for anything else. */
  function Flipped(result: string): string {
    if result == WIN then LOSE else WIN
  }

  /** `toggleResult`: the result at `pos` flipped and one count moved from its old counter to its new one. */
  function Toggled(h: BattleHistory, pos: nat): (r: BattleHistory)
    requires pos < |h.records|
    ensures |r.records| == |h.records|
    ensures forall i :: 0 <= i < |h.records| && i != pos ==> r.records[i] == h.records[i]
    ensures var now := r.records[pos].result;
      && (now == WIN || now == LOSE) && now != h.records[pos].result
      && r.records[pos] == h.records[pos].(result := now)
    ensures if h.records[pos].result == WIN
      then r.totalWins == h.totalWins - 1 && r.totalLosses == h.totalLosses + 1
      else r.totalWins == h.totalWins + 1 && r.totalLosses == h.totalLosses - 1
  {
    var rec := h.records[pos];
    var newResult := Flipped(rec.result);
    var counted :=
      if newResult == WIN then h.(totalWins := h.totalWins + 1, totalLosses := h.totalLosses - 1)
      else h.(totalWins := h.totalWins - 1, totalLosses := h.totalLosses + 1);
    Replaced(counted, pos, rec.(result := newResult))
  }

  /** `deleteRecord`: the record at `pos` removed, the rest in order, and the counter of its result lowered. */
  function Deleted(h: BattleHistory, pos: nat): (r: BattleHistory)
    requires pos < |h.records|
    ensures |r.records| == |h.records| - 1
    ensures forall i :: 0 <= i < pos ==> r.records[i] == h.records[i]
    ensures forall i :: pos <= i < |r.records| ==> r.records[i] == h.records[i + 1]
    ensures if h.records[pos].result == WIN
      then r.totalWins == h.totalWins - 1 && r.totalLosses == h.totalLosses
      else r.totalWins == h.totalWins && r.totalLosses == h.totalLosses - 1
  {
    var rec := h.records[pos];
    var counted :=
      if rec.result == WIN then h.(totalWins := h.totalWins - 1) else h.(totalLosses := h.totalLosses - 1);
    counted.(records := h.records[..pos] + h.records[pos + 1..])
  }

  /**
   * `insertRecordAfter`: a copy of the record at `pos`, stamped `timestamp`, inserted at `pos + 1`
   * and counted for its result (as a loss for anything but WIN).
   */
  function InsertedAfter(h: BattleHistory, pos: nat, timestamp: string): (r: BattleHistory)
    requires pos < |h.records|
    ensures |r.records| == |h.records| + 1
    ensures r.records[pos + 1] == h.records[pos].(timestamp := timestamp)
    ensures forall i :: 0 <= i <= pos ==> r.records[i] == h.records[i]
    ensures forall i :: pos + 1 < i < |r.records| ==> r.records[i] == h.records[i - 1]
    ensures if h.records[pos].result == WIN
      then r.totalWins == h.totalWins + 1 && r.totalLosses == h.totalLosses
      else r.totalWins == h.totalWins && r.totalLosses == h.totalLosses + 1
  {
    var copy := h.records[pos].(timestamp := timestamp);
    var listed := h.(records := h.records[..pos + 1] + [copy] + h.records[pos + 1..]);
    if copy.result == WIN then listed.(totalWins := h.totalWins + 1) else listed.(totalLosses := h.totalLosses + 1)
  }

  /** The party correction: the record with `partyIndex` replaced. */
  function WithParty(rec: BattleRecord, which: int): BattleRecord {
    rec.(partyIndex := which)
  }

  /**
   * The monster correction. `index` counts the monsters shown (own party, then enemy party); the
   * first 4 indices address the own party and the rest the enemy party from index 4, whatever the
   * actual length of the own party. The list write fails when that slot does not exist.
   */
  function WithMonster(rec: BattleRecord, index: nat, name: string): (r: Outcome<BattleRecord>)
    ensures r.Threw? <==> (index < 4 && index >= |rec.myParty|) || (index >= 4 && index - 4 >= |rec.enemyParty|)
    ensures r.Done? ==> r.value.(myParty := rec.myParty, enemyParty := rec.enemyParty) == rec
    ensures r.Done? ==> |r.value.myParty| == |rec.myParty| && |r.value.enemyParty| == |rec.enemyParty|
  {
    if index < 4 then
      if index < |rec.myParty| then Done(rec.(myParty := rec.myParty[index := name])) else Threw
    else
      if index - 4 < |rec.enemyParty| then Done(rec.(enemyParty := rec.enemyParty[index - 4 := name])) else Threw
  }

  /**
   * With the usual 4 own monsters, the correction replaces exactly the tapped monster of the
   * combined list and always succeeds.
   */
  lemma WithMonsterReplacesTapped(rec: BattleRecord, index: nat, name: string)
    requires |rec.myParty| == 4 && index < |rec.myParty| + |rec.enemyParty|
    ensures WithMonster(rec, index, name).Done?
    ensures var e := WithMonster(rec, index, name).value;
      e.myParty + e.enemyParty == (rec.myParty + rec.enemyParty)[index := name]
  {
    var e := WithMonster(rec, index, name).value;
    var all := rec.myParty + rec.enemyParty;
    if index < 4 {
      assert e.myParty + e.enemyParty == all[index := name] by {
        assert forall k :: 0 <= k < |all| ==> (e.myParty + e.enemyParty)[k] == all[index := name][k];
      }
    } else {
      assert e.myParty + e.enemyParty == all[index := name] by {
        assert forall k :: 0 <= k < |all| ==> (e.myParty + e.enemyParty)[k] == all[index := name][k];
      }
    }
  }

  // ---------------------------------------------------------------------------------------
  // The counters stay in step with the records

  predicate WinOrLose(rec: BattleRecord) {
    rec.result == WIN || rec.result == LOSE
  }

  /** Replacing a record by one with the same result keeps the counters right. */
  lemma ReplacedConsistent(h: BattleHistory, pos: nat, rec: BattleRecord)
    requires pos < |h.records| && Consistent(h) && rec.result == h.records[pos].result
    ensures Consistent(Replaced(h, pos, rec))
    ensures WinLoseOnly(h.records) ==> WinLoseOnly(Replaced(h, pos, rec).records)
  {
    var rs := h.records;
    assert rs == rs[..pos] + [rs[pos]] + rs[pos + 1..];
    assert rs[pos := rec] == rs[..pos] + [rec] + rs[pos + 1..];
    CountSplit(rs[..pos], rs[pos], rs[pos + 1..], WIN);
    CountSplit(rs[..pos], rs[pos], rs[pos + 1..], LOSE);
    CountSplit(rs[..pos], rec, rs[pos + 1..], WIN);
    CountSplit(rs[..pos], rec, rs[pos + 1..], LOSE);
  }

  /** Toggling a WIN or LOSE record keeps the counters right, and keeps every result WIN or LOSE. */
  lemma ToggledConsistent(h: BattleHistory, pos: nat)
    requires pos < |h.records| && Consistent(h) && WinOrLose(h.records[pos])
    ensures Consistent(Toggled(h, pos))
    ensures WinLoseOnly(h.records) ==> WinLoseOnly(Toggled(h, pos).records)
  {
    var rs := h.records;
    var rec := rs[pos].(result := Flipped(rs[pos].result));
    assert rs == rs[..pos] + [rs[pos]] + rs[pos + 1..];
    assert rs[pos := rec] == rs[..pos] + [rec] + rs[pos + 1..];
    CountSplit(rs[..pos], rs[pos], rs[pos + 1..], WIN);
    CountSplit(rs[..pos], rs[pos], rs[pos + 1..], LOSE);
    CountSplit(rs[..pos], rec, rs[pos + 1..], WIN);
    CountSplit(rs[..pos], rec, rs[pos + 1..], LOSE);
  }

  /** Toggling a WIN or LOSE record twice gives back the history. */
  lemma ToggledTwice(h: BattleHistory, pos: nat)
    requires pos < |h.records| && WinOrLose(h.records[pos])
    ensures Toggled(Toggled(h, pos), pos) == h
  {
    var t := Toggled(Toggled(h, pos), pos);
    assert t.records == h.records;
  }

  /** Deleting a WIN or LOSE record keeps the counters right. */
  lemma DeletedConsistent(h: BattleHistory, pos: nat)
    requires pos < |h.records| && Consistent(h) && WinOrLose(h.records[pos])
    ensures Consistent(Deleted(h, pos))
    ensures WinLoseOnly(h.records) ==> WinLoseOnly(Deleted(h, pos).records)
  {
    var rs := h.records;
    assert rs == rs[..pos] + [rs[pos]] + rs[pos + 1..];
    CountSplit(rs[..pos], rs[pos], rs[pos + 1..], WIN);
    CountSplit(rs[..pos], rs[pos], rs[pos + 1..], LOSE);
    CountAppend(rs[..pos], rs[pos + 1..], WIN);
    CountAppend(rs[..pos], rs[pos + 1..], LOSE);
  }

  /** Inserting a copy of a WIN or LOSE record keeps the counters right. */
  lemma InsertedAfterConsistent(h: BattleHistory, pos: nat, timestamp: string)
    requires pos < |h.records| && Consistent(h) && WinOrLose(h.records[pos])
    ensures Consistent(InsertedAfter(h, pos, timestamp))
    ensures WinLoseOnly(h.records) ==> WinLoseOnly(InsertedAfter(h, pos, timestamp).records)
  {
    var rs := h.records;
    var copy := rs[pos].(timestamp := timestamp);
    assert rs == rs[..pos + 1] + rs[pos + 1..];
    CountSplit(rs[..pos + 1], copy, rs[pos + 1..], WIN);
    CountSplit(rs[..pos + 1], copy, rs[pos + 1..], LOSE);
    CountAppend(rs[..pos + 1], rs[pos + 1..], WIN);
    CountAppend(rs[..pos + 1], rs[pos + 1..], LOSE);
  }

  /** Deleting the inserted copy gives back the history. */
  lemma DeletedUndoesInsertedAfter(h: BattleHistory, pos: nat, timestamp: string)
    requires pos < |h.records|
    ensures Deleted(InsertedAfter(h, pos, timestamp), pos + 1) == h
  {
    var d := Deleted(InsertedAfter(h, pos, timestamp), pos + 1);
    assert d.records == h.records;
  }

  // ---------------------------------------------------------------------------------------
  // The edits on the open history, each followed by a save

  /** `updateAndSave`: the record written at `pos`, then the history saved. */
  method UpdateAndSave(dm: DataManager, pos: nat, rec: BattleRecord)
    requires pos < |dm.history.records|
    modifies dm, dm.disk
    ensures dm.history == Replaced(old(dm.history), pos, rec)
    ensures dm.currentFileName == old(dm.currentFileName)
    ensures dm.disk.files == old(dm.disk.files)[JsonName(dm.currentFileName) := dm.history]
    ensures dm.disk.lastFileName == old(dm.disk.lastFileName) && dm.disk.calibration == old(dm.disk.calibration)
  {
    dm.history := dm.history.(records := dm.history.records[pos := rec]);
    dm.SaveHistory();
  }

  method ToggleResult(dm: DataManager, pos: nat)
    requires pos < |dm.history.records|
    modifies dm, dm.disk
    ensures dm.history == Toggled(old(dm.history), pos)
    ensures dm.currentFileName == old(dm.currentFileName)
    ensures dm.disk.files == old(dm.disk.files)[JsonName(dm.currentFileName) := dm.history]
    ensures dm.disk.lastFileName == old(dm.disk.lastFileName) && dm.disk.calibration == old(dm.disk.calibration)
  {
    var rec := dm.history.records[pos];
    var newResult := if rec.result == WIN then LOSE else WIN;
    if newResult == WIN {
      dm.history := dm.history.(totalWins := dm.history.totalWins + 1, totalLosses := dm.history.totalLosses - 1);
    } else {
      dm.history := dm.history.(totalWins := dm.history.totalWins - 1, totalLosses := dm.history.totalLosses + 1);
    }
    UpdateAndSave(dm, pos, rec.(result := newResult));
  }

  method DeleteRecord(dm: DataManager, pos: nat)
    requires pos < |dm.history.records|
    modifies dm, dm.disk
    ensures dm.history == Deleted(old(dm.history), pos)
    ensures dm.currentFileName == old(dm.currentFileName)
    ensures dm.disk.files == old(dm.disk.files)[JsonName(dm.currentFileName) := dm.history]
    ensures dm.disk.lastFileName == old(dm.disk.lastFileName) && dm.disk.calibration == old(dm.disk.calibration)
  {
    var rec := dm.history.records[pos];
    if rec.result == WIN {
      dm.history := dm.history.(totalWins := dm.history.totalWins - 1);
    } else {
      dm.history := dm.history.(totalLosses := dm.history.totalLosses - 1);
    }
    dm.history := dm.history.(records := dm.history.records[..pos] + dm.history.records[pos + 1..]);
    dm.SaveHistory();
  }

  /** `timestamp` is the formatted current time; the dialog then reopens on `pos + 1`, which is returned. */
  method InsertRecordAfter(dm: DataManager, pos: nat, timestamp: string) returns (reopened: nat)
    requires pos < |dm.history.records|
    modifies dm, dm.disk
    ensures dm.history == InsertedAfter(old(dm.history), pos, timestamp)
    ensures reopened == pos + 1 && dm.history.records[reopened].timestamp == timestamp
    ensures dm.currentFileName == old(dm.currentFileName)
    ensures dm.disk.files == old(dm.disk.files)[JsonName(dm.currentFileName) := dm.history]
    ensures dm.disk.lastFileName == old(dm.disk.lastFileName) && dm.disk.calibration == old(dm.disk.calibration)
  {
    var newRecord := dm.history.records[pos].(timestamp := timestamp);
    dm.history := dm.history.(records := dm.history.records[..pos + 1] + [newRecord] + dm.history.records[pos + 1..]);
    if newRecord.result == WIN {
      dm.history := dm.history.(totalWins := dm.history.totalWins + 1);
    } else {
      dm.history := dm.history.(totalLosses := dm.history.totalLosses + 1);
    }
    dm.SaveHistory();
    reopened := pos + 1;
  }

  /** The party selector offers parties 1 to 3, i.e. indices 0 to 2. */
  method EditParty(dm: DataManager, pos: nat, which: int)
    requires pos < |dm.history.records| && 0 <= which <= 2
    modifies dm, dm.disk
    ensures dm.history == Replaced(old(dm.history), pos, WithParty(old(dm.history.records[pos]), which))
    ensures dm.currentFileName == old(dm.currentFileName)
    ensures dm.disk.files == old(dm.disk.files)[JsonName(dm.currentFileName) := dm.history]
    ensures dm.disk.lastFileName == old(dm.disk.lastFileName) && dm.disk.calibration == old(dm.disk.calibration)
  {
    var record := dm.history.records[pos];
    UpdateAndSave(dm, pos, record.(partyIndex := which));
  }

  /**
   * The monster correction: `index` is a tapped position among the shown monsters and `name` a
   * catalogue name. When the list write fails, the IndexOutOfBoundsException is not caught on the
   * main thread and ends the app: `crashed` reports it, and nothing has been changed or saved.
   */
  method EditMonster(dm: DataManager, pos: nat, index: nat, name: string) returns (crashed: bool)
    requires pos < |dm.history.records|
    requires index < |dm.history.records[pos].myParty| + |dm.history.records[pos].enemyParty|
    modifies dm, dm.disk
    ensures crashed <==> WithMonster(old(dm.history.records[pos]), index, name).Threw?
    ensures crashed ==> dm.history == old(dm.history) && dm.disk.files == old(dm.disk.files)
    ensures !crashed ==> dm.history == Replaced(old(dm.history), pos, WithMonster(old(dm.history.records[pos]), index, name).value)
    ensures !crashed ==> dm.disk.files == old(dm.disk.files)[JsonName(dm.currentFileName) := dm.history]
    ensures dm.currentFileName == old(dm.currentFileName)
    ensures dm.disk.lastFileName == old(dm.disk.lastFileName) && dm.disk.calibration == old(dm.disk.calibration)
  {
    var record := dm.history.records[pos];
    var isMyParty := index < 4;
    var monsterIndex := if isMyParty then index else index - 4;
    var newMyParty := record.myParty;
    var newEnemyParty := record.enemyParty;
    if isMyParty {
      if monsterIndex >= |newMyParty| {
        return true;
      }
      newMyParty := newMyParty[monsterIndex := name];
    } else {
      if monsterIndex >= |newEnemyParty| {
        return true;
      }
      newEnemyParty := newEnemyParty[monsterIndex := name];
    }
    UpdateAndSave(dm, pos, record.(myParty := newMyParty, enemyParty := newEnemyParty));
    crashed := false;
  }

  // ---------------------------------------------------------------------------------------
  // Enemy ranking

  /** One row of the ranking: appearances, appearance rate and win rate against the monster. */
  datatype RankData = RankData(name: string, count: int, appearanceRate: real, winRate: real)

  predicate Distinct<T(==)>(xs: seq<T>) {
    forall i, j :: 0 <= i < j < |xs| ==> xs[i] != xs[j]
  }

  /** `filter { it.isNotEmpty() }.distinct()`: the non-empty names, each at its first occurrence. */
  function EnemyNames(party: seq<string>): (ns: seq<string>)
    ensures Distinct(ns)
    ensures forall n :: n in ns <==> n in party && n != ""
    decreases |party|
  {
    if party == [] then []
    else
      var ns := EnemyNames(party[..|party| - 1]);
      var last := party[|party| - 1];
      assert party == party[..|party| - 1] + [last];
      if last == "" || last in ns then ns else ns + [last]
  }

  /** Number of records in which the enemy party shows `name`. */
  function Appearances(rs: seq<BattleRecord>, name: string): (n: nat)
    decreases |rs|
  {
    if rs == [] then 0
    else Appearances(rs[..|rs| - 1], name) + (if name in EnemyNames(rs[|rs| - 1].enemyParty) then 1 else 0)
  }

  /** Number of WIN records in which the enemy party shows `name`. */
  function WinsAgainst(rs: seq<BattleRecord>, name: string): (n: nat)
    decreases |rs|
  {
    if rs == [] then 0
    else
      var last := rs[|rs| - 1];
      WinsAgainst(rs[..|rs| - 1], name) + (if last.result == WIN && name in EnemyNames(last.enemyParty) then 1 else 0)
  }

  /** A name counts once per record at most, and only in records won counts as a win against it. */
  lemma {:induction false} AppearanceBounds(rs: seq<BattleRecord>, name: string)
    ensures WinsAgainst(rs, name) <= Appearances(rs, name) <= |rs|
    ensures name == "" ==> Appearances(rs, name) == 0
    decreases |rs|
  {
    if rs != [] {
      AppearanceBounds(rs[..|rs| - 1], name);
    }
  }

  /** Keys added to a linked map in order: the new names appended, in their order. */
  function AddNew(order: seq<string>, names: seq<string>): (r: seq<string>)
    decreases |names|
  {
    if names == [] then order
    else
      var o := AddNew(order, names[..|names| - 1]);
      if names[|names| - 1] in o then o else o + [names[|names| - 1]]
  }

  lemma {:induction false} AddNewFacts(order: seq<string>, names: seq<string>)
    requires Distinct(order)
    ensures Distinct(AddNew(order, names))
    ensures forall n :: n in AddNew(order, names) <==> n in order || n in names
    decreases |names|
  {
    if names != [] {
      var init := names[..|names| - 1];
      AddNewFacts(order, init);
      assert names == init + [names[|names| - 1]];
    }
  }

  /** The map's key order: every shown enemy name, at the record where it first appears. */
  function FirstSeen(rs: seq<BattleRecord>): seq<string>
    decreases |rs|
  {
    if rs == [] then [] else AddNew(FirstSeen(rs[..|rs| - 1]), EnemyNames(rs[|rs| - 1].enemyParty))
  }

  /** The ranked names are distinct and are exactly the names that appear at least once. */
  lemma {:induction false} FirstSeenFacts(rs: seq<BattleRecord>)
    ensures Distinct(FirstSeen(rs))
    ensures forall n :: n in FirstSeen(rs) <==> Appearances(rs, n) > 0
    decreases |rs|
  {
    if rs != [] {
      var init := rs[..|rs| - 1];
      FirstSeenFacts(init);
      AddNewFacts(FirstSeen(init), EnemyNames(rs[|rs| - 1].enemyParty));
    }
  }

  /** The row of `name`. */
  function RankOf(rs: seq<BattleRecord>, name: string): RankData {
    var count := Appearances(rs, name);
    RankData(name, count, Rate(count, |rs|), Rate(WinsAgainst(rs, name), count))
  }

  /** The rows in key order, before sorting. */
  function Unsorted(rs: seq<BattleRecord>): (rows: seq<RankData>)
    ensures |rows| == |FirstSeen(rs)|
    ensures forall k :: 0 <= k < |rows| ==> rows[k] == RankOf(rs, FirstSeen(rs)[k])
  {
    var order := FirstSeen(rs);
    seq(|order|, k requires 0 <= k < |order| => RankOf(rs, order[k]))
  }

  function ByCountDescending(d: RankData): real { -(d.count as real) }
  function ByWinRate(d: RankData): real { d.winRate }

  /** `showAnalysisDialog`'s list: None ("no data") for an empty history, else the rows sorted by count, descending. */
  function Ranking(rs: seq<BattleRecord>): Option<seq<RankData>> {
    if rs == [] then None else Some(SortBy(Unsorted(rs), ByCountDescending))
  }

  /**
   * The ranking holds one row per name that appears, highest count first; every count is between 1
   * and the number of battles, and both rates are percentages.
   */
  lemma RankingFacts(rs: seq<BattleRecord>)
    requires rs != []
    ensures var list := Ranking(rs).value;
      && SortedBy(list, ByCountDescending)
      && multiset(list) == multiset(Unsorted(rs))
      && (forall v :: WithKey(list, ByCountDescending, v) == WithKey(Unsorted(rs), ByCountDescending, v))
      && |list| == |FirstSeen(rs)|
      && (forall k :: 0 <= k < |list| ==> list[k] == RankOf(rs, list[k].name))
      && (forall k :: 0 <= k < |list| ==> list[k].name != "" && 1 <= list[k].count <= |rs|)
      && (forall k :: 0 <= k < |list| ==>
            0.0 <= list[k].appearanceRate <= 100.0 && 0.0 <= list[k].winRate <= 100.0)
  {
    var rows := Unsorted(rs);
    var list := Ranking(rs).value;
    SortByIsSorted(rows, ByCountDescending);
    SortByLength(rows, ByCountDescending);
    FirstSeenFacts(rs);
    forall k | 0 <= k < |list|
      ensures list[k] == RankOf(rs, list[k].name)
      ensures list[k].name != "" && 1 <= list[k].count <= |rs|
      ensures 0.0 <= list[k].appearanceRate <= 100.0 && 0.0 <= list[k].winRate <= 100.0
    {
      assert list[k] in multiset(rows);
      var j :| 0 <= j < |rows| && rows[j] == list[k];
      var name := FirstSeen(rs)[j];
      AppearanceBounds(rs, name);
      RateBounds(Appearances(rs, name), |rs|);
      RateBounds(WinsAgainst(rs, name), Appearances(rs, name));
    }
  }

  /** A missing key reads as 0 (`getOrDefault(name, 0)`). */
  function Get(m: map<string, int>, name: string): int {
    if name in m then m[name] else 0
  }

  /** The maps after some records: the key order and the two counts of every name. */
  ghost predicate Tallied(rs: seq<BattleRecord>, order: seq<string>, appearance: map<string, int>, wins: map<string, int>) {
    && order == FirstSeen(rs)
    && (forall n :: n in appearance <==> n in order)
    && (forall n :: Get(appearance, n) == Appearances(rs, n))
    && (forall n :: Get(wins, n) == WinsAgainst(rs, n))
  }

  /** The tally of the records `before` and of the first `j` names of the next record (`won` when it is a WIN). */
  ghost predicate TalliedPart(before: seq<BattleRecord>, won: bool, names: seq<string>, j: nat, order0: seq<string>,
                              order: seq<string>, appearance: map<string, int>, wins: map<string, int>)
  {
    && j <= |names|
    && order == AddNew(order0, names[..j])
    && (forall n :: n in appearance <==> n in order)
    && (forall n :: Get(appearance, n) == Appearances(before, n) + (if n in names[..j] then 1 else 0))
    && (forall n :: Get(wins, n) == WinsAgainst(before, n) + (if won && n in names[..j] then 1 else 0))
  }

  /** One name of one record counted. */
  method CountName(ghost before: seq<BattleRecord>, won: bool, names: seq<string>, j: nat, ghost order0: seq<string>,
                   order: seq<string>, appearance: map<string, int>, wins: map<string, int>)
    returns (order': seq<string>, appearance': map<string, int>, wins': map<string, int>)
    requires j < |names| && Distinct(names)
    requires TalliedPart(before, won, names, j, order0, order, appearance, wins)
    ensures TalliedPart(before, won, names, j + 1, order0, order', appearance', wins')
  {
    var name := names[j];
    ghost var done := names[..j + 1];
    assert done == names[..j] + [name];
    assert name !in names[..j];
    order' := if name in appearance then order else order + [name];
    appearance' := appearance[name := Get(appearance, name) + 1];
    wins' := wins;
    if won {
      wins' := wins[name := Get(wins, name) + 1];
    }
    assert done[..j] == names[..j];
    assert order' == AddNew(order0, done);
    forall n
      ensures Get(appearance', n) == Appearances(before, n) + (if n in done then 1 else 0)
      ensures Get(wins', n) == WinsAgainst(before, n) + (if won && n in done then 1 else 0)
    {
      assert n in done <==> n in names[..j] || n == name;
    }
  }

  /** The end of one record's names is the tally of one more record. */
  lemma TalliedNext(rs: seq<BattleRecord>, i: nat, order0: seq<string>,
                    order: seq<string>, appearance: map<string, int>, wins: map<string, int>)
    requires i < |rs| && order0 == FirstSeen(rs[..i])
    requires var names := EnemyNames(rs[i].enemyParty);
      TalliedPart(rs[..i], rs[i].result == WIN, names, |names|, order0, order, appearance, wins)
    ensures Tallied(rs[..i + 1], order, appearance, wins)
  {
    var names := EnemyNames(rs[i].enemyParty);
    assert names[..|names|] == names;
    assert rs[..i + 1][..i] == rs[..i];
  }

  /** `showAnalysisDialog`: the two counting maps filled record by record, then the sorted rows. */
  method AnalyseRanking(rs: seq<BattleRecord>) returns (r: Option<seq<RankData>>)
    ensures r == Ranking(rs)
  {
    if rs == [] {
      return None;
    }
    var order: seq<string> := [];
    var appearance: map<string, int> := map[];
    var wins: map<string, int> := map[];
    for i := 0 to |rs|
      invariant Tallied(rs[..i], order, appearance, wins)
    {
      var names := EnemyNames(rs[i].enemyParty);
      ghost var order0 := order;
      assert names[..0] == [];
      var won := rs[i].result == WIN;
      for j := 0 to |names|
        invariant TalliedPart(rs[..i], won, names, j, order0, order, appearance, wins)
      {
        order, appearance, wins := CountName(rs[..i], won, names, j, order0, order, appearance, wins);
      }
      TalliedNext(rs, i, order0, order, appearance, wins);
    }
    assert rs[..|rs|] == rs;
    var rows := seq(|order|, k requires 0 <= k < |order| =>
      var count := Get(appearance, order[k]);
      RankData(order[k], count, Rate(count, |rs|), Rate(Get(wins, order[k]), count)));
    assert rows == Unsorted(rs);
    r := Some(SortBy(rows, ByCountDescending));
  }

  /** The open ranking dialog: the rows and which order the sort button switches to. */
  class RankingDialog {
    var rows: seq<RankData>
    var sortedByAppearance: bool

    constructor (rows: seq<RankData>)
      ensures this.rows == rows && sortedByAppearance
    {
      this.rows := rows;
      sortedByAppearance := true;
    }

    /** The sort button: from count order to ascending win rate, and back. */
    method ToggleSort()
      modifies this
      ensures sortedByAppearance == !old(sortedByAppearance)
      ensures old(sortedByAppearance) ==> rows == SortBy(old(rows), ByWinRate)
      ensures !old(sortedByAppearance) ==> rows == SortBy(old(rows), ByCountDescending)
      ensures multiset(rows) == multiset(old(rows))
      ensures sortedByAppearance ==> SortedBy(rows, ByCountDescending)
      ensures !sortedByAppearance ==> SortedBy(rows, ByWinRate)
      ensures old(sortedByAppearance) ==> forall v :: WithKey(rows, ByWinRate, v) == WithKey(old(rows), ByWinRate, v)
      ensures !old(sortedByAppearance) ==>
        forall v :: WithKey(rows, ByCountDescending, v) == WithKey(old(rows), ByCountDescending, v)
    {
      if sortedByAppearance {
        SortByIsSorted(rows, ByWinRate);
        rows := SortBy(rows, ByWinRate);
      } else {
        SortByIsSorted(rows, ByCountDescending);
        rows := SortBy(rows, ByCountDescending);
      }
      sortedByAppearance := !sortedByAppearance;
    }
  }
}
