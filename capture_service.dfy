/**
 * The battle state machine of `MediaCaptureService.kt`, as a sequential event system. A captured
 * frame is an event (`OnFrame`); the work the service posts to its analysis thread is the queue
 * `pending`, and `RunTask(i)` runs any one pending task, which covers every order the thread's
 * delays could produce. A battle is a session: detecting the VS banner clears the queue, installs a
 * fresh session id and starts a chain of identification passes tagged with it; the result banner
 * ends the session (id 0) and records the battle. A pass whose id is no longer the current one
 * leaves the slots alone, and the chain it belongs to dies out.
 */
module CaptureService {
  import opened Wrappers
  import opened Vision
  import opened DataModels
  import opened Storage
  import opened BattleData
  import opened BattleAnalyzer
  import opened MainScreen

  /** At most one frame is analysed per 500 ms. */
  const AnalysisIntervalMs: int := 500
  /** VS detection starts `repeatScan(id, 40, 50)`. */
  const ScanPasses: int := 40
  const ScanDelayMs: int := 50

  datatype State = Idle | InBattle

  /** The work posted to the analysis thread. */
  datatype Task =
    | Analyse(frame: Mat)                                  // the per-frame check of the current state
    | ScanPass(sessionId: int, count: int, delayMs: int)   // one identification pass of a session
    | Rescan(sessionId: int, count: int, delayMs: int)     // the delayed `repeatScan` a pass posts
  {
    predicate IsScan() {
      ScanPass? || Rescan?
    }
  }

  // ---------------------------------------------------------------------------------------
  // The rate limiter

  /** A frame arriving at `now` is analysed when 500 ms have passed since the last analysed one. */
  predicate Admits(last: int, now: int) {
    now - last >= AnalysisIntervalMs
  }

  /** The arrival times of the analysed frames among frames arriving at `times`, the last analysis being at `last`. */
  function Analysed(last: int, times: seq<int>): seq<int>
    decreases |times|
  {
    if times == [] then []
    else if Admits(last, times[0]) then [times[0]] + Analysed(times[0], times[1..])
    else Analysed(last, times[1..])
  }

  /** The time of the last analysis after the frames arriving at `times`. */
  function LastAnalysis(last: int, times: seq<int>): int
    decreases |times|
  {
    if times == [] then last
    else if Admits(last, times[0]) then LastAnalysis(times[0], times[1..])
    else LastAnalysis(last, times[1..])
  }

  /**
   * The analysed frames are frames that arrived, in arrival order, each at least 500 ms after the
   * one analysed before it; the last analysis time is the last of them.
   */
  lemma {:induction false} AnalysedSpaced(last: int, times: seq<int>)
    ensures var a := Analysed(last, times);
      && |a| <= |times|
      && (forall k :: 0 <= k < |a| ==> a[k] in times)
      && (a != [] ==> a[0] - last >= AnalysisIntervalMs && LastAnalysis(last, times) == a[|a| - 1])
      && (a == [] ==> LastAnalysis(last, times) == last)
      && (forall k :: 0 <= k < |a| - 1 ==> a[k + 1] - a[k] >= AnalysisIntervalMs)
    decreases |times|
  {
    if times != [] {
      var rest := times[1..];
      if Admits(last, times[0]) {
        AnalysedSpaced(times[0], rest);
        var b := Analysed(times[0], rest);
        assert forall k :: 0 <= k < |b| ==> b[k] in times by {
          assert forall x :: x in rest ==> x in times;
        }
      } else {
        AnalysedSpaced(last, rest);
        assert forall x :: x in rest ==> x in times;
      }
    }
  }

  /** One more frame: it is analysed exactly when it arrives 500 ms after the last analysis. */
  lemma {:induction false} AnalysedSnoc(last: int, times: seq<int>, t: int)
    ensures Analysed(last, times + [t])
      == Analysed(last, times) + (if Admits(LastAnalysis(last, times), t) then [t] else [])
    ensures LastAnalysis(last, times + [t]) == if Admits(LastAnalysis(last, times), t) then t else LastAnalysis(last, times)
    decreases |times|
  {
    if times == [] {
      assert [t][1..] == [];
    } else {
      assert (times + [t])[1..] == times[1..] + [t];
      if Admits(last, times[0]) {
        AnalysedSnoc(times[0], times[1..], t);
      } else {
        AnalysedSnoc(last, times[1..], t);
      }
    }
  }

  // ---------------------------------------------------------------------------------------
  // Pending work

  /** The queue without its task at `i`. */
  function Without(ts: seq<Task>, i: nat): (r: seq<Task>)
    requires i < |ts|
    ensures |r| == |ts| - 1
  {
    ts[..i] + ts[i + 1..]
  }

  /** A task of the scan chain of session `id`. */
  predicate Live(t: Task, id: int) {
    t.IsScan() && t.sessionId == id
  }

  /** How many pending tasks belong to the scan chain of session `id`. */
  function LiveScans(ts: seq<Task>, id: int): nat
    decreases |ts|
  {
    if ts == [] then 0 else LiveScans(ts[..|ts| - 1], id) + (if Live(ts[|ts| - 1], id) then 1 else 0)
  }

  lemma {:induction false} LiveScansAppend(a: seq<Task>, b: seq<Task>, id: int)
    ensures LiveScans(a + b, id) == LiveScans(a, id) + LiveScans(b, id)
    decreases |b|
  {
    if b == [] {
      assert a + b == a;
    } else {
      var init := b[..|b| - 1];
      assert (a + b)[..|a + b| - 1] == a + init;
      assert (a + b)[|a + b| - 1] == b[|b| - 1];
      LiveScansAppend(a, init, id);
    }
  }

  /** Taking a task off the queue takes its share off the count. */
  lemma LiveScansWithout(ts: seq<Task>, i: nat, id: int)
    requires i < |ts|
    ensures LiveScans(Without(ts, i), id) + (if Live(ts[i], id) then 1 else 0) == LiveScans(ts, id)
  {
    assert ts == ts[..i] + [ts[i]] + ts[i + 1..];
    LiveScansAppend(ts[..i] + [ts[i]], ts[i + 1..], id);
    LiveScansAppend(ts[..i], [ts[i]], id);
    LiveScansAppend(ts[..i], ts[i + 1..], id);
    assert LiveScans([ts[i]], id) == if Live(ts[i], id) then 1 else 0 by {
      assert [ts[i]][..0] == [];
    }
  }

  /** Every scan task carries a session id, and session ids are positive. */
  predicate ScanIdsPositive(ts: seq<Task>) {
    forall k :: 0 <= k < |ts| && ts[k].IsScan() ==> ts[k].sessionId > 0
  }

  /** So no pending task belongs to session 0, the id of "no battle". */
  lemma {:induction false} NoLiveScansOfZero(ts: seq<Task>)
    requires ScanIdsPositive(ts)
    ensures LiveScans(ts, 0) == 0
    decreases |ts|
  {
    if ts != [] {
      NoLiveScansOfZero(ts[..|ts| - 1]);
    }
  }

  /**
   * The condition under which `repeatScan` would save a debug image when the scan stops: no pass
   * left, the session still current, a slot still empty, and no image saved in this session.
   */
  predicate SavesDebugImageAtScanEnd(sessionId: int, current: int, count: int, allIdentified: bool, saved: bool) {
    count <= 0 && sessionId == current && !allIdentified && !saved
  }

  /**
   * The scan stops only when its session is over or every slot is identified, and either one
   * falsifies that condition: the debug image is never saved there, and the count never ends a scan.
   */
  lemma ScanEndNeverSavesDebugImage(sessionId: int, current: int, count: int, allIdentified: bool, saved: bool)
    requires sessionId != current || allIdentified
    ensures !SavesDebugImageAtScanEnd(sessionId, current, count, allIdentified, saved)
  {
  }

  // ---------------------------------------------------------------------------------------
  // The service

  class Service {
    var state: State
    var lastAnalysisTime: int
    /** The most recent frame (`latestBitmap`). */
    var latest: Option<Mat>
    var selectedPartyIndex: int
    var currentSessionId: int
    var debugImageSaved: bool
    var pending: seq<Task>
    const analyzer: Analyzer
    const manager: DataManager

    /**
     * The service's invariant: the analyser has its eight slots; every scan task has a positive
     * session id; outside a battle the session id is 0; and a session has at most one scan chain.
     */
    ghost predicate Valid()
      reads this, analyzer
    {
      && analyzer.Valid()
      && ScanIdsPositive(pending)
      && (state == Idle ==> currentSessionId == 0)
      && LiveScans(pending, currentSessionId) <= 1
    }

    /**
     * `onCreate`: the manager with the catalogue read from `monsters.json`, the analyser over that
     * catalogue with its templates loaded (`loaded[i]` is monster `i`'s decoded template, `ui` the
     * UI templates), and the initial state.
     */
    constructor (disk: Disk, catalogue: Option<seq<MonsterData>>, loaded: seq<Option<Mat>>, ui: Templates)
      requires |loaded| == |catalogue.GetOr([])|
      ensures Valid() && fresh(analyzer) && fresh(analyzer.names) && fresh(manager)
      ensures manager.disk == disk && manager.history == NewHistory()
      ensures |analyzer.master| == |catalogue.GetOr([])| && analyzer.templates == ui
      ensures analyzer.calibration == DefaultCalibration()
      ensures forall i :: 0 <= i < SlotCount ==> analyzer.names[i].None?
      ensures state == Idle && lastAnalysisTime == 0 && latest == None && selectedPartyIndex == -1
      ensures currentSessionId == 0 && !debugImageSaved && pending == []
    {
      var m := new DataManager(disk, catalogue);
      var a := new Analyzer(m.monsterMaster);
      a.LoadTemplates(loaded, ui);
      manager := m;
      analyzer := a;
      state := Idle;
      lastAnalysisTime := 0;
      latest := None;
      selectedPartyIndex := -1;
      currentSessionId := 0;
      debugImageSaved := false;
      pending := [];
    }

    /** `reloadCalibrationData`: the stored profile, when there is one, becomes the analyser's. */
    method ReloadCalibration()
      requires Valid()
      modifies analyzer
      ensures Valid()
      ensures analyzer.calibration == manager.disk.calibration.GetOr(old(analyzer.calibration))
      ensures analyzer.master == old(analyzer.master) && analyzer.templates == old(analyzer.templates)
    {
      if manager.disk.calibration.Some? {
        analyzer.SetCalibration(manager.disk.calibration.value);
      }
    }

    /** The reload-history command: the file named by `last_file_name` (or "default_record") is opened. */
    method ReloadHistory()
      modifies manager
      ensures manager.currentFileName == CurrentFileName(manager.disk.lastFileName)
      ensures var f := JsonName(manager.currentFileName);
        manager.history == if f in manager.disk.files then manager.disk.files[f] else NewHistory()
    {
      manager.LoadHistory(CurrentFileName(manager.disk.lastFileName));
    }

    /** `onStartCommand` without a command: the last file is opened and the stored profile applied. */
    method Start()
      requires Valid()
      modifies manager, analyzer
      ensures Valid()
      ensures manager.currentFileName == CurrentFileName(manager.disk.lastFileName)
      ensures var f := JsonName(manager.currentFileName);
        manager.history == if f in manager.disk.files then manager.disk.files[f] else NewHistory()
      ensures analyzer.calibration == manager.disk.calibration.GetOr(old(analyzer.calibration))
    {
      ReloadHistory();
      ReloadCalibration();
    }

    /**
     * The image listener: the frame becomes the latest one; it is analysed (its check posted) only
     * when 500 ms have passed since the last analysed frame, and only then is the time recorded.
     */
    method OnFrame(frame: Mat, now: int) returns (analysed: bool)
      requires Valid()
      modifies this
      ensures Valid()
      ensures analysed <==> Admits(old(lastAnalysisTime), now)
      ensures latest == Some(frame)
      ensures lastAnalysisTime == if analysed then now else old(lastAnalysisTime)
      ensures pending == old(pending) + (if analysed then [Analyse(frame)] else [])
      ensures state == old(state) && currentSessionId == old(currentSessionId)
      ensures selectedPartyIndex == old(selectedPartyIndex) && debugImageSaved == old(debugImageSaved)
    {
      latest := Some(frame);
      analysed := now - lastAnalysisTime >= AnalysisIntervalMs;
      if analysed {
        lastAnalysisTime := now;
        LiveScansAppend(pending, [Analyse(frame)], currentSessionId);
        assert LiveScans([Analyse(frame)], currentSessionId) == 0 by {
          assert [Analyse(frame)][..0] == [];
        }
        pending := pending + [Analyse(frame)];
      }
    }

    /**
     * The analysis thread runs pending task `i`; `now` is the clock and `timestamp` the formatted
     * time should the task record a battle. `aborted` reports an exception that escaped the task.
     * The task leaves the queue and is dispatched: a frame to `handleIdleState` or
     * `handleBattleState` by the state, a pass to its identification pass, a rescan to
     * `repeatScan`. A scan task of a session that is over leaves the slots as they are.
     */
    method RunTask(cv: Cv, i: nat, now: int, timestamp: string) returns (aborted: bool)
      requires Valid() && i < |pending| && now > 0
      modifies this, analyzer.names, manager, manager.disk
      ensures Valid()
      ensures lastAnalysisTime == old(lastAnalysisTime) && latest == old(latest)
      ensures old(pending[i]).Analyse? && old(state) == Idle ==>
        var detected := DetectSelectedParty(cv, old(pending[i]).frame, analyzer.calibration, analyzer.templates);
        var vs := IsVsDetected(cv, old(pending[i]).frame, analyzer.calibration, analyzer.templates);
        && (aborted <==> detected.Threw? || vs.Threw?)
        && selectedPartyIndex == (if detected.Done? && detected.value != -1 then detected.value else old(selectedPartyIndex))
        && manager.history == old(manager.history) && manager.disk.files == old(manager.disk.files)
        && (detected.Done? && vs == Done(true) ==>
              && pending == [ScanPass(now, ScanPasses, ScanDelayMs)]
              && currentSessionId == now && state == InBattle && !debugImageSaved
              && forall k :: 0 <= k < SlotCount ==> analyzer.names[k].None?)
        && (!(detected.Done? && vs == Done(true)) ==>
              && pending == Without(old(pending), i) && currentSessionId == old(currentSessionId) && state == Idle
              && debugImageSaved == old(debugImageSaved) && analyzer.names[..] == old(analyzer.names[..]))
      ensures old(pending[i]).Analyse? && old(state) == InBattle ==>
        var r := CheckBattleResult(cv, old(pending[i]).frame, analyzer.calibration, analyzer.templates);
        && (aborted <==> r.Threw?)
        && pending == Without(old(pending), i) && selectedPartyIndex == old(selectedPartyIndex)
        && analyzer.names[..] == old(analyzer.names[..]) && manager.currentFileName == old(manager.currentFileName)
        && (r.Done? && r.value.Some? ==>
              && currentSessionId == 0 && state == Idle
              && debugImageSaved == (old(debugImageSaved) || !analyzer.IsAllIdentified())
              && manager.history == WithRecord(old(manager.history),
                   BattleRecord(timestamp, r.value.value, selectedPartyIndex, analyzer.CurrentResults().0, analyzer.CurrentResults().1))
              && manager.disk.files == old(manager.disk.files)[JsonName(manager.currentFileName) := manager.history])
        && (!(r.Done? && r.value.Some?) ==>
              && currentSessionId == old(currentSessionId) && state == InBattle && debugImageSaved == old(debugImageSaved)
              && manager.history == old(manager.history) && manager.disk.files == old(manager.disk.files))
      ensures old(pending[i]).ScanPass? ==>
        var t := old(pending[i]);
        && !aborted
        && pending == Without(old(pending), i) + [Rescan(t.sessionId, t.count - 1, t.delayMs)]
        && (t.sessionId == currentSessionId && latest.Some? ==>
              analyzer.names[..] == Pass(cv, latest.value, analyzer.calibration, analyzer.master, old(analyzer.names[..]), SlotCount).names)
        && (!(t.sessionId == currentSessionId && latest.Some?) ==> analyzer.names[..] == old(analyzer.names[..]))
        && currentSessionId == old(currentSessionId) && state == old(state) && debugImageSaved == old(debugImageSaved)
        && selectedPartyIndex == old(selectedPartyIndex) && manager.history == old(manager.history)
      ensures old(pending[i]).Rescan? ==>
        var t := old(pending[i]);
        && !aborted
        && pending == Without(old(pending), i) +
             (if t.sessionId == currentSessionId && !analyzer.IsAllIdentified() then [ScanPass(t.sessionId, t.count, t.delayMs)] else [])
        && analyzer.names[..] == old(analyzer.names[..])
        && currentSessionId == old(currentSessionId) && state == old(state) && debugImageSaved == old(debugImageSaved)
        && selectedPartyIndex == old(selectedPartyIndex) && manager.history == old(manager.history)
      ensures old(pending[i]).IsScan() && old(pending[i]).sessionId != old(currentSessionId) ==>
        && analyzer.names[..] == old(analyzer.names[..])
        && currentSessionId == old(currentSessionId) && state == old(state)
        && !aborted
    {
      var t := pending[i];
      LiveScansWithout(pending, i, currentSessionId);
      pending := Without(pending, i);
      aborted := false;
      match t
      case Analyse(frame) =>
        if state == Idle {
          aborted := HandleIdle(cv, frame, now);
        } else {
          aborted := HandleBattle(cv, frame, timestamp);
        }
      case ScanPass(id, count, delayMs) =>
        RunPass(cv, id, count, delayMs);
      case Rescan(id, count, delayMs) =>
        RepeatScan(id, count, delayMs);
    }

    /**
     * `handleIdleState`: a detected party is remembered; when the VS banner is seen, the queue is
     * cleared, `now` becomes the session id, the debug flag is cleared, the state becomes IN_BATTLE,
     * the slots are emptied and the first pass of the session is posted. An exception from either
     * check ends the task there.
     */
    method HandleIdle(cv: Cv, frame: Mat, now: int) returns (aborted: bool)
      requires Valid() && now > 0
      modifies this, analyzer.names
      ensures Valid()
      ensures var detected := DetectSelectedParty(cv, frame, analyzer.calibration, analyzer.templates);
        var vs := IsVsDetected(cv, frame, analyzer.calibration, analyzer.templates);
        && (aborted <==> detected.Threw? || vs.Threw?)
        && selectedPartyIndex == (if detected.Done? && detected.value != -1 then detected.value else old(selectedPartyIndex))
        && (detected.Done? && vs == Done(true) ==>
              && pending == [ScanPass(now, ScanPasses, ScanDelayMs)]
              && currentSessionId == now && state == InBattle && !debugImageSaved
              && forall k :: 0 <= k < SlotCount ==> analyzer.names[k].None?)
        && (!(detected.Done? && vs == Done(true)) ==>
              && pending == old(pending) && currentSessionId == old(currentSessionId) && state == old(state)
              && debugImageSaved == old(debugImageSaved) && analyzer.names[..] == old(analyzer.names[..]))
      ensures lastAnalysisTime == old(lastAnalysisTime) && latest == old(latest)
    {
      var detected := DetectSelectedParty(cv, frame, analyzer.calibration, analyzer.templates);
      var vs := IsVsDetected(cv, frame, analyzer.calibration, analyzer.templates);
      aborted := OnIdleChecks(detected, vs, now);
    }

    /** `handleIdleState` once its two checks have given `detected` and `vs`. */
    method OnIdleChecks(detected: Outcome<int>, vs: Outcome<bool>, now: int) returns (aborted: bool)
      requires Valid() && now > 0
      modifies this, analyzer.names
      ensures Valid()
      ensures aborted <==> detected.Threw? || vs.Threw?
      ensures selectedPartyIndex == (if detected.Done? && detected.value != -1 then detected.value else old(selectedPartyIndex))
      ensures detected.Done? && vs == Done(true) ==>
        && pending == [ScanPass(now, ScanPasses, ScanDelayMs)]
        && currentSessionId == now && state == InBattle && !debugImageSaved
        && forall k :: 0 <= k < SlotCount ==> analyzer.names[k].None?
      ensures !(detected.Done? && vs == Done(true)) ==>
        && pending == old(pending) && currentSessionId == old(currentSessionId) && state == old(state)
        && debugImageSaved == old(debugImageSaved) && analyzer.names[..] == old(analyzer.names[..])
      ensures lastAnalysisTime == old(lastAnalysisTime) && latest == old(latest)
    {
      if detected.Threw? {
        return true;
      }
      if detected.value != -1 {
        selectedPartyIndex := detected.value;
      }
      if vs.Threw? {
        return true;
      }
      aborted := false;
      if vs.value {
        StartSession(now);
      }
    }

    /** The VS branch of `handleIdleState`: a new session and its first pass. */
    method StartSession(now: int)
      requires Valid() && now > 0
      modifies this, analyzer.names
      ensures Valid()
      ensures pending == [ScanPass(now, ScanPasses, ScanDelayMs)]
      ensures currentSessionId == now && state == InBattle && !debugImageSaved
      ensures forall k :: 0 <= k < SlotCount ==> analyzer.names[k].None?
      ensures selectedPartyIndex == old(selectedPartyIndex) && lastAnalysisTime == old(lastAnalysisTime) && latest == old(latest)
    {
      pending := [];
      currentSessionId := now;
      debugImageSaved := false;
      state := InBattle;
      analyzer.ResetIdentification();
      assert !analyzer.IsAllIdentified() by {
        assert analyzer.names[0].None?;
      }
      assert Valid() && LiveScans(pending, now) == 0;
      RepeatScan(currentSessionId, ScanPasses, ScanDelayMs);
    }

    /**
     * `handleBattleState` and `finalizeBattle`: when the result banner is seen, the debug flag is
     * set if a slot is still empty, the session ends (id 0), one record of the result, the current
     * slots and the selected party is appended (and saved), and the state returns to IDLE.
     * Without a result nothing changes. An exception from the check ends the task.
     */
    method HandleBattle(cv: Cv, frame: Mat, timestamp: string) returns (aborted: bool)
      requires Valid()
      modifies this, manager, manager.disk
      ensures Valid()
      ensures var r := CheckBattleResult(cv, frame, analyzer.calibration, analyzer.templates);
        && (aborted <==> r.Threw?)
        && (r.Done? && r.value.Some? ==>
              && currentSessionId == 0 && state == Idle
              && debugImageSaved == (old(debugImageSaved) || !analyzer.IsAllIdentified())
              && manager.history == WithRecord(old(manager.history),
                   BattleRecord(timestamp, r.value.value, selectedPartyIndex, analyzer.CurrentResults().0, analyzer.CurrentResults().1))
              && manager.disk.files == old(manager.disk.files)[JsonName(manager.currentFileName) := manager.history])
        && (!(r.Done? && r.value.Some?) ==>
              && currentSessionId == old(currentSessionId) && state == old(state) && debugImageSaved == old(debugImageSaved)
              && manager.history == old(manager.history) && manager.disk.files == old(manager.disk.files))
      ensures pending == old(pending) && selectedPartyIndex == old(selectedPartyIndex)
      ensures lastAnalysisTime == old(lastAnalysisTime) && latest == old(latest)
      ensures manager.currentFileName == old(manager.currentFileName)
    {
      var r := CheckBattleResult(cv, frame, analyzer.calibration, analyzer.templates);
      if r.Threw? {
        return true;
      }
      aborted := false;
      if r.value.Some? {
        if !analyzer.IsAllIdentified() && !debugImageSaved {
          debugImageSaved := true;
        }
        currentSessionId := 0;
        NoLiveScansOfZero(pending);
        FinalizeBattle(r.value.value, timestamp);
      }
    }

    /** `finalizeBattle`: the record is appended with the current slots and party, and the state returns to IDLE. */
    method FinalizeBattle(result: string, timestamp: string)
      requires analyzer.Valid()
      modifies this, manager, manager.disk
      ensures state == Idle
      ensures manager.history == WithRecord(old(manager.history),
        BattleRecord(timestamp, result, selectedPartyIndex, analyzer.CurrentResults().0, analyzer.CurrentResults().1))
      ensures manager.disk.files == old(manager.disk.files)[JsonName(manager.currentFileName) := manager.history]
      ensures manager.currentFileName == old(manager.currentFileName)
      ensures currentSessionId == old(currentSessionId) && debugImageSaved == old(debugImageSaved)
      ensures pending == old(pending) && selectedPartyIndex == old(selectedPartyIndex)
      ensures lastAnalysisTime == old(lastAnalysisTime) && latest == old(latest)
    {
      var results := analyzer.CurrentResults();
      manager.AddRecord(result, results.0, results.1, selectedPartyIndex, timestamp);
      state := Idle;
    }

    /**
     * One pass of a scan: the latest frame, if any, is run through `identifyStepByStep` only if
     * the pass's session is still the current one (an exception there is caught); in every case
     * the next `repeatScan` of the session is posted with one pass less.
     */
    method RunPass(cv: Cv, sessionId: int, count: int, delayMs: int)
      requires Valid() && sessionId > 0
      requires sessionId == currentSessionId ==> LiveScans(pending, currentSessionId) == 0
      modifies this, analyzer.names
      ensures Valid()
      ensures pending == old(pending) + [Rescan(sessionId, count - 1, delayMs)]
      ensures sessionId == currentSessionId && latest.Some? ==>
        analyzer.names[..] == Pass(cv, latest.value, analyzer.calibration, analyzer.master, old(analyzer.names[..]), SlotCount).names
      ensures !(sessionId == currentSessionId && latest.Some?) ==> analyzer.names[..] == old(analyzer.names[..])
      ensures currentSessionId == old(currentSessionId) && state == old(state) && debugImageSaved == old(debugImageSaved)
      ensures selectedPartyIndex == old(selectedPartyIndex) && lastAnalysisTime == old(lastAnalysisTime) && latest == old(latest)
    {
      if latest.Some? && sessionId == currentSessionId {
        var _ := analyzer.IdentifyStepByStep(cv, latest.value);
      }
      LiveScansAppend(pending, [Rescan(sessionId, count - 1, delayMs)], currentSessionId);
      assert LiveScans([Rescan(sessionId, count - 1, delayMs)], currentSessionId) == (if sessionId == currentSessionId then 1 else 0) by {
        assert [Rescan(sessionId, count - 1, delayMs)][..0] == [];
      }
      pending := pending + [Rescan(sessionId, count - 1, delayMs)];
    }

    /**
     * `repeatScan`: the next pass is posted only while the session is current and a slot is still
     * empty. The count plays no part: passes go on past zero (see ScanEndNeverSavesDebugImage).
     */
    method RepeatScan(sessionId: int, count: int, delayMs: int)
      requires Valid() && sessionId > 0
      requires sessionId == currentSessionId ==> LiveScans(pending, currentSessionId) == 0
      modifies this
      ensures Valid()
      ensures pending == old(pending) +
        (if sessionId == currentSessionId && !analyzer.IsAllIdentified() then [ScanPass(sessionId, count, delayMs)] else [])
      ensures currentSessionId == old(currentSessionId) && state == old(state) && debugImageSaved == old(debugImageSaved)
      ensures selectedPartyIndex == old(selectedPartyIndex) && lastAnalysisTime == old(lastAnalysisTime) && latest == old(latest)
    {
      if sessionId != currentSessionId || analyzer.IsAllIdentified() {
        return;
      }
      LiveScansAppend(pending, [ScanPass(sessionId, count, delayMs)], currentSessionId);
      assert LiveScans([ScanPass(sessionId, count, delayMs)], currentSessionId) == 1 by {
        assert [ScanPass(sessionId, count, delayMs)][..0] == [];
      }
      pending := pending + [ScanPass(sessionId, count, delayMs)];
    }

    /** `onDestroy`: the session ends, so no pending scan task belongs to the current session any more. */
    method OnDestroy()
      requires Valid()
      modifies this
      ensures Valid()
      ensures currentSessionId == 0
      ensures forall k :: 0 <= k < |pending| && pending[k].IsScan() ==> pending[k].sessionId != currentSessionId
      ensures pending == old(pending) && state == old(state) && debugImageSaved == old(debugImageSaved)
      ensures selectedPartyIndex == old(selectedPartyIndex) && lastAnalysisTime == old(lastAnalysisTime) && latest == old(latest)
    {
      currentSessionId := 0;
      NoLiveScansOfZero(pending);
    }
  }
}
