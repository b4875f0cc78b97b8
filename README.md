# NakamonRec core, modelled in Dafny

NakamonRec is an Android app that records the battles of a mobile game. The game screen is mirrored through
MediaProjection. A foreground capture service analyses frames with OpenCV template matching. It works out:

- which of the player's three parties is selected;
- when a battle starts (the VS banner);
- the four own and four enemy monsters;
- whether the battle ended in a WIN or a LOSE.

Each concluded battle is appended to a JSON history file. Three screens use those files:

- the main screen manages the files (select, create, rename, delete, clear, CSV export);
- the history screen edits single records and ranks enemy monsters;
- the calibration screen adjusts the on-screen boxes the analyser looks at, by hand or automatically.

This project models that core and proves properties of the model:

- **data model**: battle records, histories with their win/loss counters, statistics, boxes and the
  calibration profile (`data_models.dfy`);
- **analyser**: the template searches and the battle-state checks (`vision.dfy`, `crop.dfy`, `searches.dfy`,
  `party_calibration.dfy`, `battle_analyzer.dfy`). Each arg-max loop is a method whose loop invariant ties its
  running best to a "first strict maximum" specification (`selection.dfy`). The eight identification slots
  are an array that `IdentifyStepByStep` fills in place;
- **history file manager**: a class over a storage object that holds the files directory and the preferences
  (`storage.dfy`, `data_manager.dfy`);
- **capture service**: a class whose state changes with each frame and each analysis task. The Handler
  queue is a sequence of pending tasks, and any pending task may run next (`capture_service.dfy`);
- **the three screens**: `history_screen.dfy`, `calibration_screen.dfy`, `main_screen.dfy`, with the
  string handling of the export and the file names in `text.dfy`.

OpenCV itself is a parameter, `Vision.Cv`. It gives the size `Imgproc.resize` produces and the
`TM_CCOEFF_NORMED` correlation of a template at an offset. `Core.minMaxLoc` is modelled exactly on top of it:
the first strict maximum in row-major order. Kotlin exceptions that escape an operation are an
`Outcome.Threw` value. `Float` and `Double` are `real`, and `toInt()` truncates toward zero.

## Model

| member | source | states |
|---|---|---|
| Wrappers.Collect | app/src/main/java/com/android/nakamonrec/BattleAnalyzer.kt:423-427 | The results of a loop of calls that may throw. The loop throws iff one of the calls throws. Otherwise it gives every call's value, in order. |
| Wrappers.CollectSnoc | app/src/main/java/com/android/nakamonrec/BattleAnalyzer.kt:424-427 | One more call: the collected outcome throws iff the earlier ones or the new one throws. Otherwise the new value is appended. |
| Numerics.TruncToInt | app/src/main/java/com/android/nakamonrec/BattleAnalyzer.kt:90-91 | `Float.toInt()`: the integer is within 1 of the value, toward zero, for positive and negative values. |
| Numerics.Half | app/src/main/java/com/android/nakamonrec/BattleAnalyzer.kt:119-123 | Kotlin's `n / 2` on `Int`: truncates toward zero for both signs. |
| Numerics.CoerceIn | app/src/main/java/com/android/nakamonrec/BattleAnalyzer.kt:90-91 | `coerceIn(lo, hi)` on a non-empty range: the value when inside, `lo` below, `hi` above. |
| Selection.ScanIsFirstArgMax | app/src/main/java/com/android/nakamonrec/BattleAnalyzer.kt:94-116 | The `if (score > bestScore)` running best over a candidate list is the first strict maximum among the scored candidates above the start score. Otherwise it is the start value. |
| Selection.FirstArgMaxIsUnique | app/src/main/java/com/android/nakamonrec/BattleAnalyzer.kt:98-116 | The first strict maximum is unique, so the running best and the specification name the same candidate. |
| Selection.ScanStep | app/src/main/java/com/android/nakamonrec/BattleAnalyzer.kt:108-112 | One loop step: the running best changes iff the next candidate is scored and beats it strictly. |
| Selection.ScanSnoc | app/src/main/java/com/android/nakamonrec/BattleAnalyzer.kt:108-112 | The same step, for a list extended by one candidate. |
| Selection.ScanOutcome | app/src/main/java/com/android/nakamonrec/BattleAnalyzer.kt:94-116 | Every scored candidate is at most the final best. A final best above the start is the first candidate to reach it. Otherwise nothing was taken. |
| Selection.RunningBestStart | app/src/main/java/com/android/nakamonrec/BattleAnalyzer.kt:325-326 | Before the loop, the start value (score -1, empty name) is the running best with its item. |
| Selection.RunningBestStep | app/src/main/java/com/android/nakamonrec/BattleAnalyzer.kt:338-341 | The running best carries the item of the candidate that set it (the monster name), step by step. |
| Selection.RunningBestAt | app/src/main/java/com/android/nakamonrec/BattleAnalyzer.kt:338-341 | The same step at position `i` of the candidate list. |
| Sorting.InsertKeepsSorted | app/src/main/java/com/android/nakamonrec/BattleAnalyzer.kt:264 | Stable insertion keeps a list sorted by the key. |
| Sorting.InsertAddsOne | app/src/main/java/com/android/nakamonrec/BattleAnalyzer.kt:264 | Insertion adds exactly the inserted element (as multisets). |
| Sorting.InsertBounded | app/src/main/java/com/android/nakamonrec/BattleAnalyzer.kt:264 | Insertion keeps every key above a lower bound. |
| Sorting.SortByIsSorted | app/src/main/java/com/android/nakamonrec/BattleAnalyzer.kt:264 | `sortedBy`: the result is sorted by the key, is a permutation of the input, and is stable (for every key value, the elements with that key keep their input order). |
| Sorting.SortByOrdered | app/src/main/java/com/android/nakamonrec/BattleAnalyzer.kt:264 | The result is sorted by the key and is a permutation of the input. |
| Sorting.InsertStable | app/src/main/java/com/android/nakamonrec/BattleAnalyzer.kt:264 | Inserting into a sorted list places the element after every element with an equal key, and keeps the order of all others. |
| Sorting.SortByStable | app/src/main/java/com/android/nakamonrec/HistoryActivity.kt:176-179 | Sorting is stable: for any key value, the elements with that key appear in the same order as in the input. |
| Sorting.SortByLength | app/src/main/java/com/android/nakamonrec/HistoryActivity.kt:124 | Sorting keeps the length of the list. |
| Vision.Resize | app/src/main/java/com/android/nakamonrec/BattleAnalyzer.kt:101 | `Imgproc.resize` by a factor gives the size the OpenCV oracle fixes for it. |
| Vision.RowPeak | app/src/main/java/com/android/nakamonrec/BattleAnalyzer.kt:107 | The peak of one row of a score map is a cell of that row and holds its value. |
| Vision.RowPeakIsFirstMax | app/src/main/java/com/android/nakamonrec/BattleAnalyzer.kt:107 | The row peak is at least every cell of the row and strictly above every earlier cell. |
| Vision.MapPeak | app/src/main/java/com/android/nakamonrec/BattleAnalyzer.kt:107 | The peak of the first rows of a score map is a cell inside them and holds its value. |
| Vision.MapPeakIsFirstMax | app/src/main/java/com/android/nakamonrec/BattleAnalyzer.kt:107 | That peak is the first maximum in row-major order. |
| Vision.MinMaxLoc | app/src/main/java/com/android/nakamonrec/BattleAnalyzer.kt:107 | `Core.minMaxLoc(...).maxVal/maxLoc`: a cell of the map holding its value. |
| Vision.MinMaxLocIsFirstMax | app/src/main/java/com/android/nakamonrec/BattleAnalyzer.kt:107 | `maxLoc` is the first maximum of the whole map in row-major order. |
| Vision.MatchPeak | app/src/main/java/com/android/nakamonrec/BattleAnalyzer.kt:104-107 | `matchTemplate` then `minMaxLoc` on a template that fits: the location is a valid offset. The value is the correlation there, and it is the highest correlation at any offset. |
| Text.NatText | app/src/main/java/com/android/nakamonrec/MainActivity.kt:437-438 | A non-negative `Int` in a string template is a non-empty string of decimal digits. |
| Text.NatTextValue | app/src/main/java/com/android/nakamonrec/MainActivity.kt:437-438 | Reading those digits back gives the number. |
| Text.IntText | app/src/main/java/com/android/nakamonrec/MainActivity.kt:450 | A negative `Int` is written with a minus sign before its digits. |
| Text.JoinedSnoc | app/src/main/java/com/android/nakamonrec/MainActivity.kt:439 | `appendLine` appends the line and a line feed to the text built so far. |
| Text.LinesOfJoined | app/src/main/java/com/android/nakamonrec/MainActivity.kt:439-460 | Splitting the built text at line feeds gives back the appended lines, when no line holds a line feed. |
| Text.Mapped | app/src/main/java/com/android/nakamonrec/MainActivity.kt:441-445 | `forEach` over a list produces one string per element, in order. |
| Text.MappedSnoc | app/src/main/java/com/android/nakamonrec/MainActivity.kt:441-445 | Mapping a prefix one element longer appends that element's string. |
| Text.LastDot | app/src/main/java/com/android/nakamonrec/MainActivity.kt:389-390 | The position of the last '.', or -1 when there is none. |
| Text.SplitAtLastDot | app/src/main/java/com/android/nakamonrec/MainActivity.kt:389-390 | `nameWithoutExtension + "." + extension` gives back a name that contains a dot. |
| Text.WithExtension | app/src/main/java/com/android/nakamonrec/MainActivity.kt:389-390 | For a dot-free name and extension, `nameWithoutExtension` and `extension` of `name.ext` give them back. |
| Crop.GetRawROI | app/src/main/java/com/android/nakamonrec/BattleAnalyzer.kt:303-322 | `getRawROI`. It throws iff the box is wider or taller than the frame (`coerceIn` on an empty range, outside the `try`). It gives nothing for a non-positive size. Otherwise the crop has the box's size, lies inside the frame and is centred on the box, clamped to the frame's edges. |
| Crop.PerformColorMatch | app/src/main/java/com/android/nakamonrec/BattleAnalyzer.kt:380-409 | `performColorMatch`. With no template the score is 0. It throws iff the crop throws. When the crop is empty, or the scaled template does not fit inside it, the score is 0. Otherwise it is the best correlation of the scaled template inside the crop. |
| DataModels.NewHistory | app/src/main/java/com/android/nakamonrec/DataModels.kt:28-32 | An empty history has no records and zero counters. |
| DataModels.DefaultCalibrationShape | app/src/main/java/com/android/nakamonrec/DataModels.kt:68-95 | The default profile has 4 + 4 slot boxes and 3 party selectors and scale 1.0. Every box has its centre on screen and a positive size. The WIN and LOSE boxes are the same. |
| DataModels.CountResult | app/src/main/java/com/android/nakamonrec/BattleDataManager.kt:61-62 | `records.count { it.result == r }` is at most the number of records. |
| DataModels.CountsPartition | app/src/main/java/com/android/nakamonrec/BattleDataManager.kt:61-63 | When every record is WIN or LOSE, the two counts add up to the number of records. |
| DataModels.CountAppend | app/src/main/java/com/android/nakamonrec/BattleDataManager.kt:61-62 | Counting over two lists adds up. |
| DataModels.CountSingle | app/src/main/java/com/android/nakamonrec/BattleDataManager.kt:61-62 | One record counts 1 for its own result and 0 otherwise. |
| DataModels.NewHistoryConsistent | app/src/main/java/com/android/nakamonrec/DataModels.kt:28-32 | An empty history's counters agree with its records. |
| BattleData.WithRecord | app/src/main/java/com/android/nakamonrec/BattleDataManager.kt:29-35 | Appending a battle adds the record at the end. A WIN raises `totalWins` by one; any other result raises `totalLosses` by one; the other counter is unchanged. |
| BattleData.WithRecordConsistent | app/src/main/java/com/android/nakamonrec/BattleDataManager.kt:29-35 | Appending a WIN or LOSE record keeps the counters equal to the counts of the records. |
| BattleData.OtherResultBreaksConsistency | app/src/main/java/com/android/nakamonrec/BattleDataManager.kt:30 | Any other result is counted as a loss, which breaks that agreement. |
| BattleData.DataManager.constructor | app/src/main/java/com/android/nakamonrec/BattleDataManager.kt:10-27 | A new manager holds the catalogue (empty when it cannot be read), the file name "default_stats" and an empty history. |
| BattleData.DataManager.SaveHistory | app/src/main/java/com/android/nakamonrec/BattleDataManager.kt:48-52 | `saveHistory` writes the history under `<name>.json`. Nothing else on disk changes. |
| BattleData.DataManager.AddRecord | app/src/main/java/com/android/nakamonrec/BattleDataManager.kt:29-35 | `addRecord` appends the record and saves the file in use. The history is WithRecord's, so WIN raises `totalWins` by one and any other result raises `totalLosses` by one. |
| BattleData.DataManager.LoadHistory | app/src/main/java/com/android/nakamonrec/BattleDataManager.kt:37-46 | `loadHistory` makes the name current. It reads the stored history, or starts an empty one when the file does not exist. |
| BattleData.DataManager.ResetHistory | app/src/main/java/com/android/nakamonrec/BattleDataManager.kt:54-57 | `resetHistory` empties the history and saves it under the current name. |
| BattleData.RateBounds | app/src/main/java/com/android/nakamonrec/BattleDataManager.kt:64 | A rate of a part of a whole is a percentage in 0..100. It is 0 for an empty whole, and exactly `num * 100 / den` otherwise. |
| BattleData.PartyRecords | app/src/main/java/com/android/nakamonrec/BattleDataManager.kt:68 | `filter { it.partyIndex == idx }` keeps only that party's records, keeps every record of that party, takes each from the input as many times as it occurs at most, and cannot grow the list. |
| BattleData.Statistics | app/src/main/java/com/android/nakamonrec/BattleDataManager.kt:59-81 | `getStatistics` gives three party entries. Entry `i` holds party `i`'s wins, losses, win rate and usage rate. |
| BattleData.WinsAndLossesAtMost | app/src/main/java/com/android/nakamonrec/BattleDataManager.kt:61-63 | Wins plus losses never exceed the number of records. |
| BattleData.PartiesPartition | app/src/main/java/com/android/nakamonrec/BattleDataManager.kt:67-78 | The three parties' records and the unassigned ones partition the records. None is unassigned iff every party index is 0..2. |
| BattleData.StatisticsFacts | app/src/main/java/com/android/nakamonrec/BattleDataManager.kt:59-81 | The totals are counted from the records, not read from the stored counters. Every rate is a percentage. Each party's wins plus losses fit in its records. The party counts cover all records iff every index is 0..2. |
| Searches.Band | app/src/main/java/com/android/nakamonrec/BattleAnalyzer.kt:90-91 | The horizontal band of the scene: `startY` below `endY`, both clamped. They are the truncated fractions whenever those lie in range. |
| Searches.BandRegion | app/src/main/java/com/android/nakamonrec/BattleAnalyzer.kt:92 | The band is a full-width region of at least one row. |
| Searches.WorkTemplate | app/src/main/java/com/android/nakamonrec/BattleAnalyzer.kt:100-102 | The working template has the resized size, in grey or colour. |
| Searches.ScaleCandidate | app/src/main/java/com/android/nakamonrec/BattleAnalyzer.kt:99-114 | A scale is scored iff the resized template is strictly smaller than the band in both dimensions. A scored scale carries that scale and size. |
| Searches.ScaleCandidates | app/src/main/java/com/android/nakamonrec/BattleAnalyzer.kt:98 | One candidate per scale of the fixed list of 12. |
| Searches.ScaleCandidatesStep | app/src/main/java/com/android/nakamonrec/BattleAnalyzer.kt:98-116 | The candidates of one more scale extend the list by that scale's candidate. |
| Searches.ScaleCandidatesAt | app/src/main/java/com/android/nakamonrec/BattleAnalyzer.kt:98-116 | Candidate `i` is the candidate of scale `i`. |
| Searches.ScaleConfig | app/src/main/java/com/android/nakamonrec/BattleAnalyzer.kt:118-127 | The found box: the template's size at the best scale, centred on the match and mapped back out of the band, as fractions of the scene. |
| Searches.ScaleSearchFindsFirstBest | app/src/main/java/com/android/nakamonrec/BattleAnalyzer.kt:77-133 | A box is found iff some scale scores above 0.4. The box comes from the first scale reaching the best score, with that score and scale. |
| Searches.BestScale | app/src/main/java/com/android/nakamonrec/BattleAnalyzer.kt:94-116 | The loop state after all scales is the first strict best of the candidates, with its position and scale. |
| Searches.VisitScale | app/src/main/java/com/android/nakamonrec/BattleAnalyzer.kt:99-116 | One loop iteration extends the invariant to one more scale. |
| Searches.FindTemplateWithScale | app/src/main/java/com/android/nakamonrec/BattleAnalyzer.kt:77-133 | The method computes the search result the specification defines. |
| Searches.FindTemplateGlobal | app/src/main/java/com/android/nakamonrec/BattleAnalyzer.kt:135-142 | `findTemplateGlobal` gives the found box and its score. It gives nothing iff the search finds nothing, and a score above 0.4 otherwise. |
| Searches.LocalScales | app/src/main/java/com/android/nakamonrec/BattleAnalyzer.kt:192 | Three local scales. |
| Searches.SearchWindow | app/src/main/java/com/android/nakamonrec/BattleAnalyzer.kt:183-187 | The 15% search window around the estimated centre lies inside the scene. |
| Searches.LocalCandidate | app/src/main/java/com/android/nakamonrec/BattleAnalyzer.kt:196-209 | A monster at a local scale is scored iff its template fits strictly inside the window. It carries that size and scale. |
| Searches.MonsterCandidates | app/src/main/java/com/android/nakamonrec/BattleAnalyzer.kt:195-196 | A monster without a template contributes nothing (`continue`). Otherwise it contributes one candidate per local scale. |
| Searches.StrictCandidates | app/src/main/java/com/android/nakamonrec/BattleAnalyzer.kt:199 | Every scored candidate fits strictly inside the window. |
| Searches.StrictCandidatesStep | app/src/main/java/com/android/nakamonrec/BattleAnalyzer.kt:194-212 | One more monster appends its three candidates. |
| Searches.StrictConfig | app/src/main/java/com/android/nakamonrec/BattleAnalyzer.kt:214-220 | The found box: the best match's size, centred on it, as fractions of the scene. |
| Searches.StrictSearchFindsFirstBest | app/src/main/java/com/android/nakamonrec/BattleAnalyzer.kt:182-225 | A box is found iff some candidate scores above 0.55. Its size is that of the first candidate reaching the best score. |
| Searches.ScanMonster | app/src/main/java/com/android/nakamonrec/BattleAnalyzer.kt:195-211 | The inner loop over a monster's scales extends the invariant by its candidates. |
| Searches.FindBestMonsterStrict | app/src/main/java/com/android/nakamonrec/BattleAnalyzer.kt:182-225 | The nested loops compute the strict search result. |
| Searches.MatchCandidate | app/src/main/java/com/android/nakamonrec/BattleAnalyzer.kt:330-343 | A monster is scored iff it has a template whose scaled size fits inside the crop. A scored monster carries its name. |
| Searches.MatchCandidates | app/src/main/java/com/android/nakamonrec/BattleAnalyzer.kt:329 | One candidate per monster of the catalogue. |
| Searches.MonsterMatchFindsFirstBest | app/src/main/java/com/android/nakamonrec/BattleAnalyzer.kt:324-347 | Every scored monster scores at most the result. A result above -1 is the first monster reaching it, with its name. Otherwise the result is ("", -1). |
| Searches.FindBestMonsterMatch | app/src/main/java/com/android/nakamonrec/BattleAnalyzer.kt:324-347 | The loop computes that result. |
| BattleAnalyzer.IsVsDetected | app/src/main/java/com/android/nakamonrec/BattleAnalyzer.kt:357-359 | VS is detected iff the colour match of the VS box scores above 0.7. It throws iff the match throws, and is false without a VS template. |
| BattleAnalyzer.CheckBattleResult | app/src/main/java/com/android/nakamonrec/BattleAnalyzer.kt:361-378 | WIN iff the WIN score is above 0.4. LOSE iff it is not and the LOSE score is above 0.4. No result iff both are at most 0.4. A throw of the WIN match propagates. |
| BattleAnalyzer.NoTemplatesNoResult | app/src/main/java/com/android/nakamonrec/BattleAnalyzer.kt:361-381 | Without WIN and LOSE templates no battle ever ends. |
| BattleAnalyzer.PartyScores | app/src/main/java/com/android/nakamonrec/BattleAnalyzer.kt:424-427 | One score per selector box, each the colour match of that box. The loop throws iff one of the matches throws. |
| BattleAnalyzer.SelectParty | app/src/main/java/com/android/nakamonrec/BattleAnalyzer.kt:428-430 | The selected party is the first index of the maximum score when that reaches 0.45. It is -1 iff every score is below 0.45. |
| BattleAnalyzer.DetectSelectedParty | app/src/main/java/com/android/nakamonrec/BattleAnalyzer.kt:423-431 | The result is -1 or a valid selector index. It throws iff scoring a selector throws. |
| BattleAnalyzer.NoSelectTemplateNoParty | app/src/main/java/com/android/nakamonrec/BattleAnalyzer.kt:381 | Without the SELECT template no party is ever detected. |
| BattleAnalyzer.EstimatedFractionOffset | app/src/main/java/com/android/nakamonrec/BattleAnalyzer.kt:160-165 | The estimated slot centre is the VS centre plus the reference offset from (540, 1260), times the found scale. |
| BattleAnalyzer.SlotConfigIsFoundOrEstimated | app/src/main/java/com/android/nakamonrec/BattleAnalyzer.kt:160-167 | A slot's box is the strict search's box when found. Otherwise it is the estimate, sized 80 x 130 times the scale. |
| BattleAnalyzer.MonsterConfig | app/src/main/java/com/android/nakamonrec/BattleAnalyzer.kt:160-167 | The local `getMonsterConfig` computes that box. |
| BattleAnalyzer.SlotConfigs | app/src/main/java/com/android/nakamonrec/BattleAnalyzer.kt:169-176 | One box per reference position. |
| BattleAnalyzer.BattleSceneProfile | app/src/main/java/com/android/nakamonrec/BattleAnalyzer.kt:144-180 | The auto-calibrated profile has the found VS box and scale and one box per reference slot. The party selectors and result boxes are the defaults. |
| BattleAnalyzer.AutoCalibrateBattleScene | app/src/main/java/com/android/nakamonrec/BattleAnalyzer.kt:144-180 | There is no profile iff the VS banner is not found between 30% and 70% of the height. Otherwise the profile is the one above. |
| BattleAnalyzer.SlotBox | app/src/main/java/com/android/nakamonrec/BattleAnalyzer.kt:288 | Slot `i` reads own box `i` or enemy box `i - 4`, and there is none when that list is too short. |
| BattleAnalyzer.SlotStepAt | app/src/main/java/com/android/nakamonrec/BattleAnalyzer.kt:287-297 | A slot throws iff its box is missing (index out of bounds) or its crop throws. It is skipped iff its crop is empty. Otherwise it is scored by the monster match on its crop. |
| BattleAnalyzer.Pass | app/src/main/java/com/android/nakamonrec/BattleAnalyzer.kt:286-299 | A pass keeps one entry per slot. |
| BattleAnalyzer.PassLeavesLaterSlots | app/src/main/java/com/android/nakamonrec/BattleAnalyzer.kt:286-299 | Slots the pass has not reached are unchanged. |
| BattleAnalyzer.PassSlots | app/src/main/java/com/android/nakamonrec/BattleAnalyzer.kt:286-299 | An identified slot keeps its name. An empty slot is bound only to a match scoring above 0.7. When the pass does not throw, every empty slot with such a match is bound to it. |
| BattleAnalyzer.PassThrows | app/src/main/java/com/android/nakamonrec/BattleAnalyzer.kt:286-299 | A pass throws iff some empty slot it reaches throws. |
| BattleAnalyzer.PassEndsOnThrow | app/src/main/java/com/android/nakamonrec/BattleAnalyzer.kt:286-299 | After a throw the later slots are not visited. |
| BattleAnalyzer.AllIdentifiedIff | app/src/main/java/com/android/nakamonrec/BattleAnalyzer.kt:278 | `isAllIdentified` iff every slot holds a name. |
| BattleAnalyzer.PassAfterAllIdentified | app/src/main/java/com/android/nakamonrec/BattleAnalyzer.kt:287 | A pass over fully identified slots changes nothing and does not throw. |
| BattleAnalyzer.PassBindsCatalogueNames | app/src/main/java/com/android/nakamonrec/BattleAnalyzer.kt:290-292 | A slot a pass changes holds the name of a catalogue monster. |
| BattleAnalyzer.Analyzer.constructor | app/src/main/java/com/android/nakamonrec/BattleAnalyzer.kt:14-22 | A new analyser has eight empty slots, the default profile and no templates. |
| BattleAnalyzer.Analyzer.LoadTemplates | app/src/main/java/com/android/nakamonrec/BattleAnalyzer.kt:44-61 | Each monster that loads gets its template. One that fails keeps its old one. The four UI templates are set. The profile is unchanged. |
| BattleAnalyzer.Analyzer.SetCalibration | app/src/main/java/com/android/nakamonrec/BattleAnalyzer.kt:39-42 | The profile is replaced. Catalogue and templates are unchanged. |
| BattleAnalyzer.Analyzer.ResetIdentification | app/src/main/java/com/android/nakamonrec/BattleAnalyzer.kt:277 | All eight slots become empty, so not all are identified. |
| BattleAnalyzer.Analyzer.IsAllIdentified | app/src/main/java/com/android/nakamonrec/BattleAnalyzer.kt:278 | True iff all eight slots hold a name. |
| BattleAnalyzer.Analyzer.CurrentResults | app/src/main/java/com/android/nakamonrec/BattleAnalyzer.kt:351-355 | Four own and four enemy names, "?" for an empty slot. |
| BattleAnalyzer.Analyzer.VisitSlot | app/src/main/java/com/android/nakamonrec/BattleAnalyzer.kt:287-298 | One iteration of the slot loop extends the pass specification by one slot. |
| BattleAnalyzer.Analyzer.IdentifySlot | app/src/main/java/com/android/nakamonrec/BattleAnalyzer.kt:288-290 | The box lookup, crop and match of one slot give that slot's step of the specification. |
| BattleAnalyzer.Analyzer.IdentifyStepByStep | app/src/main/java/com/android/nakamonrec/BattleAnalyzer.kt:280-301 | The slot array after the loop, and whether it threw, are the pass specification applied to the old slots. |
| PartyCalibration.MaskAround | app/src/main/java/com/android/nakamonrec/BattleAnalyzer.kt:258-259 | Masking keeps the score map's size. |
| PartyCalibration.SuppressedSnoc | app/src/main/java/com/android/nakamonrec/BattleAnalyzer.kt:258-259 | After one more pick, a cell is masked iff it was masked before or lies in the new pick's window. |
| PartyCalibration.Rounds | app/src/main/java/com/android/nakamonrec/BattleAnalyzer.kt:247-261 | The `repeat(3)` picks: at most `n` peaks, and the map keeps its size. |
| PartyCalibration.RoundsMap | app/src/main/java/com/android/nakamonrec/BattleAnalyzer.kt:247-261 | After the rounds, a cell is -1 iff a pick's window covers it. Otherwise it holds the original score. |
| PartyCalibration.RoundsMapAll | app/src/main/java/com/android/nakamonrec/BattleAnalyzer.kt:247-261 | The same, for every cell of the map. |
| PartyCalibration.PickFromMasked | app/src/main/java/com/android/nakamonrec/BattleAnalyzer.kt:248-251 | A peak of the masked map that reaches 0.25 is a valid next pick. |
| PartyCalibration.LastPick | app/src/main/java/com/android/nakamonrec/BattleAnalyzer.kt:248-257 | A round that adds a peak adds the masked map's peak, which is a valid pick. |
| PartyCalibration.RoundsPicks | app/src/main/java/com/android/nakamonrec/BattleAnalyzer.kt:247-261 | Every picked peak is a valid pick given the earlier ones. |
| PartyCalibration.RoundsPickAt | app/src/main/java/com/android/nakamonrec/BattleAnalyzer.kt:247-261 | The same for pick `k`. |
| PartyCalibration.RoundsArePicks | app/src/main/java/com/android/nakamonrec/BattleAnalyzer.kt:247-261 | The picks are pairwise distinct. Each scores at least 0.25, lies outside the earlier picks' windows, and is the first maximum of the original scores there. |
| PartyCalibration.RoundsDistinct | app/src/main/java/com/android/nakamonrec/BattleAnalyzer.kt:247-261 | The picked locations are pairwise different. |
| PartyCalibration.PickBoxes | app/src/main/java/com/android/nakamonrec/BattleAnalyzer.kt:252-257 | One box per pick, centred on the pick at the template's size. |
| PartyCalibration.SumScoresAtLeast | app/src/main/java/com/android/nakamonrec/BattleAnalyzer.kt:249-250 | The summed score of picks that each reach 0.25 is at least 0.25 per pick. |
| PartyCalibration.ScoreMapOf | app/src/main/java/com/android/nakamonrec/BattleAnalyzer.kt:243-244 | The score map of a template that fits is non-empty. |
| PartyCalibration.ScalePicks | app/src/main/java/com/android/nakamonrec/BattleAnalyzer.kt:240-261 | One scale throws iff `matchTemplate` throws (a template larger than the scene). Otherwise it yields at most three picks. |
| PartyCalibration.ScaleAttempt | app/src/main/java/com/android/nakamonrec/BattleAnalyzer.kt:240-266 | A scale's attempt throws iff its picks throw. |
| PartyCalibration.ScaleAttemptParts | app/src/main/java/com/android/nakamonrec/BattleAnalyzer.kt:262-265 | A scored attempt has exactly three picks. Its boxes are sorted by `centerY`, with the scale, and its score is the sum. |
| PartyCalibration.ScaleAttemptBoxes | app/src/main/java/com/android/nakamonrec/BattleAnalyzer.kt:262-265 | A scored attempt's three boxes are sorted by `centerY` and are a permutation of the picked boxes; boxes with equal `centerY` keep their pick order. |
| PartyCalibration.RoundsPickScores | app/src/main/java/com/android/nakamonrec/BattleAnalyzer.kt:249 | Every pick scores at least 0.25. |
| PartyCalibration.ScaleAttemptScore | app/src/main/java/com/android/nakamonrec/BattleAnalyzer.kt:249-262 | A scored attempt's score is its pick sum, at least 0.75. |
| PartyCalibration.ScalePeaksArePicks | app/src/main/java/com/android/nakamonrec/BattleAnalyzer.kt:247-261 | A scale's peaks are valid picks of its score map. |
| PartyCalibration.Attempts | app/src/main/java/com/android/nakamonrec/BattleAnalyzer.kt:239-269 | One attempt per scale of the fixed list of seven. |
| PartyCalibration.AttemptsBeatStart | app/src/main/java/com/android/nakamonrec/BattleAnalyzer.kt:235 | Every scored attempt beats the start score -1. |
| PartyCalibration.AutoCalibratePartyOutcome | app/src/main/java/com/android/nakamonrec/BattleAnalyzer.kt:227-275 | With no SELECT template there is no result. It throws iff a scale throws, and has no result iff no scale yields three picks. Otherwise the result is the first attempt with the best sum. |
| PartyCalibration.AutoCalibratePartyBoxes | app/src/main/java/com/android/nakamonrec/BattleAnalyzer.kt:262-266 | A result holds three boxes sorted by `centerY`. |
| PartyCalibration.RoundsStep | app/src/main/java/com/android/nakamonrec/BattleAnalyzer.kt:248-259 | One more round: stop when the peak is below 0.25. Otherwise mask around the peak and record it. |
| PartyCalibration.PickSnoc | app/src/main/java/com/android/nakamonrec/BattleAnalyzer.kt:250-257 | One more pick appends its box and adds its score. |
| PartyCalibration.MatchAtScale | app/src/main/java/com/android/nakamonrec/BattleAnalyzer.kt:241-261 | The `repeat(3)` loop computes the picks of one scale. |
| PartyCalibration.VisitPartyScale | app/src/main/java/com/android/nakamonrec/BattleAnalyzer.kt:240-268 | One iteration of the scale loop: it throws iff the attempt throws, and otherwise keeps the running-best invariant. |
| PartyCalibration.PartyThrows | app/src/main/java/com/android/nakamonrec/BattleAnalyzer.kt:244 | A scale that throws makes the whole calibration throw. |
| PartyCalibration.PartyResultFromState | app/src/main/java/com/android/nakamonrec/BattleAnalyzer.kt:273-274 | The loop's final state is the specification's result. |
| PartyCalibration.AutoCalibrateParty | app/src/main/java/com/android/nakamonrec/BattleAnalyzer.kt:227-275 | The method computes the specified result. |
| CalibrationScreen.Numbered | app/src/main/java/com/android/nakamonrec/CalibrationActivity.kt:154-156 | `mapIndexed` into view boxes: one box per config, ids from the base, each converting back to its config. |
| CalibrationScreen.Configs | app/src/main/java/com/android/nakamonrec/CalibrationActivity.kt:198 | `map { BoxConfig(...) }`: one config per view box. |
| CalibrationScreen.ConfigsOfNumbered | app/src/main/java/com/android/nakamonrec/CalibrationActivity.kt:154-156 | Numbering configs and converting back gives them back. |
| CalibrationScreen.DisplayedIds | app/src/main/java/com/android/nakamonrec/CalibrationActivity.kt:152-177 | In "party" mode the selectors are shown with ids 0, 1, .... "win" and "lose" show their one box as id 0. Any other mode shows nothing. |
| CalibrationScreen.VsListIds | app/src/main/java/com/android/nakamonrec/CalibrationActivity.kt:157-167 | The "vs" list is the VS box as id 0, enemy box `i` as id `10 + i`, then own box `i` as id `20 + i`. The default profile shows 9 boxes. |
| CalibrationScreen.FindId | app/src/main/java/com/android/nakamonrec/CalibrationActivity.kt:201 | `find { it.id == id }`: none iff no box has the id. Otherwise it is the first box with it. |
| CalibrationScreen.WithIdsAppend | app/src/main/java/com/android/nakamonrec/CalibrationActivity.kt:203-204 | `filter { it.id in lo..hi }` distributes over concatenation. |
| CalibrationScreen.WithIdsAll | app/src/main/java/com/android/nakamonrec/CalibrationActivity.kt:203-204 | Boxes all inside the range are all kept. |
| CalibrationScreen.WithIdsNone | app/src/main/java/com/android/nakamonrec/CalibrationActivity.kt:203-204 | Boxes all outside the range are all dropped. |
| CalibrationScreen.Saved | app/src/main/java/com/android/nakamonrec/CalibrationActivity.kt:189-223 | `saveChanges` stores nothing for an empty list, or in "vs" mode without a box of id 0. Otherwise the stored profile has the screen's scale. The mode's boxes are replaced ("party" by every box, "win"/"lose" by the first) and everything else is kept. |
| CalibrationScreen.SavedVs | app/src/main/java/com/android/nakamonrec/CalibrationActivity.kt:200-204 | In "vs" mode the VS box is the first box of id 0. The enemy and own lists are the boxes with ids 10..13 and 20..23, in order. |
| CalibrationScreen.WithIds3 | app/src/main/java/com/android/nakamonrec/CalibrationActivity.kt:203-204 | Filtering distributes over a list built from three parts. |
| CalibrationScreen.VsListEnemies | app/src/main/java/com/android/nakamonrec/CalibrationActivity.kt:160-162 | With at most 4 enemy boxes, filtering ids 10..13 of the "vs" list gives them back. |
| CalibrationScreen.VsListMine | app/src/main/java/com/android/nakamonrec/CalibrationActivity.kt:163-165 | With at most 4 own boxes and at most 10 enemy boxes, filtering ids 20..23 gives the own boxes back. |
| CalibrationScreen.SaveDisplayedRoundTrip | app/src/main/java/com/android/nakamonrec/CalibrationActivity.kt:152-214 | Saving the boxes shown, unedited, stores the loaded profile with the screen's scale. This needs something shown and, in "vs" mode, at most 4 boxes per side. |
| CalibrationScreen.SaveDisplayedKeepsFirstFourEnemies | app/src/main/java/com/android/nakamonrec/CalibrationActivity.kt:203 | With more than 4 enemy boxes only the first 4 survive a save. |
| CalibrationScreen.AutoPartyProposal | app/src/main/java/com/android/nakamonrec/CalibrationActivity.kt:98-106 | The party proposal is the three found boxes, sorted by `centerY` and numbered 0..2, with their scale. |
| CalibrationScreen.SavePartyProposal | app/src/main/java/com/android/nakamonrec/CalibrationActivity.kt:197-198 | Saving a party proposal stores its boxes and scale. Nothing else changes. |
| CalibrationScreen.AutoVsProposal | app/src/main/java/com/android/nakamonrec/CalibrationActivity.kt:107-121 | The "vs" proposal is the auto-calibrated profile in the display scheme: 9 boxes, with its scale. |
| CalibrationScreen.SaveVsProposal | app/src/main/java/com/android/nakamonrec/CalibrationActivity.kt:200-204 | Saving a 4 + 4 "vs" proposal stores its VS box, slots and scale. The selectors and result boxes are kept. |
| CalibrationScreen.AutoBannerProposal | app/src/main/java/com/android/nakamonrec/CalibrationActivity.kt:122-135 | A "win"/"lose" proposal is the banner found in the upper half as box 0. The scale is kept. |
| CalibrationScreen.SaveBanner | app/src/main/java/com/android/nakamonrec/CalibrationActivity.kt:206-213 | Saving one box in "win"/"lose" mode stores it as that mode's box, with the screen's scale. |
| CalibrationScreen.BuildVsList | app/src/main/java/com/android/nakamonrec/CalibrationActivity.kt:111-119 | The list built with `add` is the "vs" list. |
| CalibrationScreen.LoadedCalibration | app/src/main/java/com/android/nakamonrec/CalibrationActivity.kt:179-187 | With nothing stored the defaults are used: 4 + 4 + 3 boxes, scale 1. |
| CalibrationScreen.Screen.constructor | app/src/main/java/com/android/nakamonrec/CalibrationActivity.kt:47-68 | The screen shows the stored profile (or the defaults) in its mode and takes that profile's scale. |
| CalibrationScreen.Screen.DisplayBoxes | app/src/main/java/com/android/nakamonrec/CalibrationActivity.kt:152-177 | The view shows the profile's boxes for the mode. The scale is unchanged. |
| CalibrationScreen.Screen.RestoreDefaults | app/src/main/java/com/android/nakamonrec/CalibrationActivity.kt:78-83 | The "default" button shows the defaults with scale 1. |
| CalibrationScreen.Screen.SaveChanges | app/src/main/java/com/android/nakamonrec/CalibrationActivity.kt:189-223 | The screen closes iff a profile is saved. The stored profile becomes the saved one, or is unchanged. Files and the file name are untouched. |
| CalibrationScreen.Screen.RunAutoCalibration | app/src/main/java/com/android/nakamonrec/CalibrationActivity.kt:90-150 | `crashed` holds iff the analyser throws on its worker, which is uncaught there and ends the app (line 95); then the screen is left as it was. Otherwise a proposal replaces the view boxes and scale, and no proposal changes nothing. |
| HistoryScreen.ShownFileAsWritten | app/src/main/java/com/android/nakamonrec/HistoryActivity.kt:37-38 | `onCreate` as written opens the stored file name, or "battle_history" when none is stored. |
| HistoryScreen.ShownFileAsWrittenMissesRecords | app/src/main/java/com/android/nakamonrec/HistoryActivity.kt:38 | With no stored name, that file differs from the one the capture service records into. |
| HistoryScreen.ShownFile | app/src/main/java/com/android/nakamonrec/HistoryActivity.kt:37-38 | The corrected choice: the stored name, or "default_record". |
| HistoryScreen.Open | app/src/main/java/com/android/nakamonrec/HistoryActivity.kt:37-41 | The screen loads the history of the file in use, or an empty one when that file does not exist. |
| HistoryScreen.CountSplit | app/src/main/java/com/android/nakamonrec/HistoryActivity.kt:344-359 | Counting over a list split around one record adds up. |
| HistoryScreen.Replaced | app/src/main/java/com/android/nakamonrec/HistoryActivity.kt:328 | `records[pos] = rec` changes that record only. The counters are untouched. |
| HistoryScreen.Toggled | app/src/main/java/com/android/nakamonrec/HistoryActivity.kt:333-342 | Toggling turns the result into the other of WIN/LOSE and changes nothing else of the record or list. A WIN turned LOSE moves one count from `totalWins` to `totalLosses`; anything else turned WIN moves one count from `totalLosses` to `totalWins`. |
| HistoryScreen.Deleted | app/src/main/java/com/android/nakamonrec/HistoryActivity.kt:344-347 | The record is removed and later ones shift down. A deleted WIN lowers `totalWins` by one; any other deleted result lowers `totalLosses` by one; the other counter is unchanged. |
| HistoryScreen.InsertedAfter | app/src/main/java/com/android/nakamonrec/HistoryActivity.kt:352-359 | A copy with the new timestamp is inserted right after the record, and later ones shift up. A WIN copy raises `totalWins` by one; any other result raises `totalLosses` by one; the other counter is unchanged. |
| HistoryScreen.WithMonster | app/src/main/java/com/android/nakamonrec/HistoryActivity.kt:263-270 | Replacing a tapped monster throws iff the tapped index is outside its party's list. Otherwise only the parties change, and they keep their lengths. |
| HistoryScreen.WithMonsterReplacesTapped | app/src/main/java/com/android/nakamonrec/HistoryActivity.kt:243 | With a 4-monster own party, replacing the monster at index `i` of `myParty + enemyParty` changes exactly that entry. |
| HistoryScreen.ReplacedConsistent | app/src/main/java/com/android/nakamonrec/HistoryActivity.kt:327-331 | Replacing a record by one with the same result keeps the counters equal to the counts. |
| HistoryScreen.ToggledConsistent | app/src/main/java/com/android/nakamonrec/HistoryActivity.kt:333-342 | Toggling a WIN or LOSE record keeps the counters consistent. |
| HistoryScreen.ToggledTwice | app/src/main/java/com/android/nakamonrec/HistoryActivity.kt:333-342 | Toggling the same WIN or LOSE record twice restores the history. |
| HistoryScreen.DeletedConsistent | app/src/main/java/com/android/nakamonrec/HistoryActivity.kt:344-350 | Deleting a WIN or LOSE record keeps the counters consistent. |
| HistoryScreen.InsertedAfterConsistent | app/src/main/java/com/android/nakamonrec/HistoryActivity.kt:352-361 | Inserting a copy of a WIN or LOSE record keeps the counters consistent. |
| HistoryScreen.DeletedUndoesInsertedAfter | app/src/main/java/com/android/nakamonrec/HistoryActivity.kt:344-359 | Deleting the inserted copy restores the history. |
| HistoryScreen.UpdateAndSave | app/src/main/java/com/android/nakamonrec/HistoryActivity.kt:327-331 | The record is replaced in place and the file in use is saved. Nothing else changes. |
| HistoryScreen.ToggleResult | app/src/main/java/com/android/nakamonrec/HistoryActivity.kt:333-342 | The history is toggled in place and saved. |
| HistoryScreen.DeleteRecord | app/src/main/java/com/android/nakamonrec/HistoryActivity.kt:344-350 | The record is deleted in place and the file saved. |
| HistoryScreen.InsertRecordAfter | app/src/main/java/com/android/nakamonrec/HistoryActivity.kt:352-364 | The copy is inserted and saved. The editor reopens on position `pos + 1`, which holds the new timestamp. |
| HistoryScreen.EditParty | app/src/main/java/com/android/nakamonrec/HistoryActivity.kt:219-228 | The record's party index becomes the chosen one, and the file is saved. |
| HistoryScreen.EditMonster | app/src/main/java/com/android/nakamonrec/HistoryActivity.kt:261-271 | `crashed` holds iff the list write is out of range, an uncaught exception on the main thread that ends the app; history and files are then unchanged. Otherwise the tapped monster is replaced and the file saved. |
| HistoryScreen.EnemyNames | app/src/main/java/com/android/nakamonrec/HistoryActivity.kt:110 | `filter { it.isNotEmpty() }.distinct()`: distinct names, and exactly the non-empty names of the party. |
| HistoryScreen.AppearanceBounds | app/src/main/java/com/android/nakamonrec/HistoryActivity.kt:109-116 | Wins against a monster are at most its appearances, which are at most the battles. The empty name never appears. |
| HistoryScreen.AddNewFacts | app/src/main/java/com/android/nakamonrec/HistoryActivity.kt:111 | Adding keys to a map's insertion order keeps it duplicate-free and holds exactly the old and new names. |
| HistoryScreen.FirstSeenFacts | app/src/main/java/com/android/nakamonrec/HistoryActivity.kt:106-116 | The ranking's names are distinct. They are exactly the names that appear at least once. |
| HistoryScreen.Unsorted | app/src/main/java/com/android/nakamonrec/HistoryActivity.kt:118-123 | One row per name, in first-seen order, each with its count and rates. |
| HistoryScreen.RankingFacts | app/src/main/java/com/android/nakamonrec/HistoryActivity.kt:99-124 | For a non-empty history the ranking is a permutation of the rows, sorted by count descending; rows with equal counts keep their first-seen order. Every name is non-empty with count 1..N, and both rates are percentages. |
| HistoryScreen.CountName | app/src/main/java/com/android/nakamonrec/HistoryActivity.kt:110-115 | Counting one enemy name extends the tally invariant by one name. |
| HistoryScreen.TalliedNext | app/src/main/java/com/android/nakamonrec/HistoryActivity.kt:109-116 | A fully counted record extends the tally to one more record. |
| HistoryScreen.AnalyseRanking | app/src/main/java/com/android/nakamonrec/HistoryActivity.kt:99-124 | The loops over records and names compute the ranking. An empty history gives none (the toast). |
| HistoryScreen.RankingDialog.constructor | app/src/main/java/com/android/nakamonrec/HistoryActivity.kt:171-173 | The dialog opens on the given rows, in count order. |
| HistoryScreen.RankingDialog.ToggleSort | app/src/main/java/com/android/nakamonrec/HistoryActivity.kt:174-183 | The button flips the order. The rows become a permutation sorted by ascending win rate, or by count descending, alternately; rows with equal keys keep their previous order. |
| MainScreen.CurrentFileName | app/src/main/java/com/android/nakamonrec/MainActivity.kt:377-380 | The stored file name, or "default_record". |
| MainScreen.NoInvalidCharAll | app/src/main/java/com/android/nakamonrec/MainActivity.kt:471 | `none { it in invalidChars }` iff no character is one of the ten forbidden ones. |
| MainScreen.IsValidFileNameIff | app/src/main/java/com/android/nakamonrec/MainActivity.kt:468-472 | A name is valid iff it is non-empty without forbidden characters. A valid name has no dot. |
| MainScreen.SelectorListsFile | app/src/main/java/com/android/nakamonrec/MainActivity.kt:389-390 | Every dot-free `x.json` other than `monsters.json` is listed as `x`. |
| MainScreen.SelectorOffersFile | app/src/main/java/com/android/nakamonrec/MainActivity.kt:389-390 | A dot-free listed name has its `.json` file, and is not "monsters". |
| MainScreen.SelectorNamesIff | app/src/main/java/com/android/nakamonrec/MainActivity.kt:389-390 | For dot-free names: listed iff its `.json` file exists and it is not "monsters". |
| MainScreen.MonstersIsHidden | app/src/main/java/com/android/nakamonrec/MainActivity.kt:389 | "monsters" is a valid new name, but its file is never listed. |
| MainScreen.Renamed | app/src/main/java/com/android/nakamonrec/MainActivity.kt:512-515 | `renameTo`: the old key is replaced by the new one holding the same history. Other files are unchanged. |
| MainScreen.RenameBack | app/src/main/java/com/android/nakamonrec/MainActivity.kt:512-515 | Renaming to a free name and back restores the files. |
| MainScreen.RenamedCurrent | app/src/main/java/com/android/nakamonrec/MainActivity.kt:516-518 | The stored name follows the rename iff it named the old file. |
| MainScreen.RenameKeepsCurrentHistory | app/src/main/java/com/android/nakamonrec/MainActivity.kt:511-518 | After a rename the file in use still holds the same history. |
| MainScreen.JsonNameInjective | app/src/main/java/com/android/nakamonrec/MainActivity.kt:512-513 | Different names give different `.json` files. |
| MainScreen.RecordFields | app/src/main/java/com/android/nakamonrec/MainActivity.kt:449-459 | Each exported row has 11 fields: timestamp, result, "パーティN", then 4 own and 4 enemy names, with "" past a list's end. |
| MainScreen.ParseQuotedRow | app/src/main/java/com/android/nakamonrec/MainActivity.kt:459 | Quote-free fields written as quoted, comma-separated values read back unchanged. |
| MainScreen.RecordLineRoundTrip | app/src/main/java/com/android/nakamonrec/MainActivity.kt:449-460 | Each record line reads back into its 11 fields, when none holds a double quote. |
| MainScreen.QuoteInFieldBreaksRow | app/src/main/java/com/android/nakamonrec/MainActivity.kt:459 | A field holding a double quote makes the row unreadable (no escaping). |
| MainScreen.HeadLayout | app/src/main/java/com/android/nakamonrec/MainActivity.kt:437-447 | The summary line, three party lines, an empty line and the column header. |
| MainScreen.CsvLayout | app/src/main/java/com/android/nakamonrec/MainActivity.kt:429-461 | The export is the 6 head lines followed by one line per record, in order. |
| MainScreen.Main.UseFile | app/src/main/java/com/android/nakamonrec/MainActivity.kt:416-419 | "use this file" stores the name. Files and profile are unchanged. |
| MainScreen.Main.CreateFile | app/src/main/java/com/android/nakamonrec/MainActivity.kt:474-499 | A valid name gets an empty history file and becomes the file in use. An invalid one changes nothing. |
| MainScreen.Main.RenameFile | app/src/main/java/com/android/nakamonrec/MainActivity.kt:501-530 | A rename happens iff the new name is valid, differs, and the old file exists. The file moves and the stored name follows. Otherwise nothing changes. |
| MainScreen.Main.DeleteFile | app/src/main/java/com/android/nakamonrec/MainActivity.kt:532-548 | The file is gone. When it existed and was in use, "default_record" becomes the file in use. |
| MainScreen.Main.ClearFile | app/src/main/java/com/android/nakamonrec/MainActivity.kt:550-567 | The file's history becomes empty. Nothing else changes. |
| MainScreen.Main.ExportCsv | app/src/main/java/com/android/nakamonrec/MainActivity.kt:429-463 | The exported text is the CSV lines of the file's history, each followed by a line feed. |
| MainScreen.AppendHead | app/src/main/java/com/android/nakamonrec/MainActivity.kt:437-447 | The head lines appended one by one give their joined text. |
| MainScreen.CsvText | app/src/main/java/com/android/nakamonrec/MainActivity.kt:435-461 | The `StringBuilder` text is the joined CSV lines. |
| MainScreen.AppendEach | app/src/main/java/com/android/nakamonrec/MainActivity.kt:441-445 | Appending one line per element keeps the text equal to the joined lines. |
| MainScreen.AppendLine | app/src/main/java/com/android/nakamonrec/MainActivity.kt:439 | One `appendLine` keeps the text equal to the joined lines. |
| MainScreen.LoadedHistory | app/src/main/java/com/android/nakamonrec/MainActivity.kt:430-431 | A file that does not exist exports an empty history. |
| MainScreen.CreatedListedDeletedNot | app/src/main/java/com/android/nakamonrec/MainActivity.kt:485-489 | A created file is listed. A deleted one is not. |
| MainScreen.RenamedListed | app/src/main/java/com/android/nakamonrec/MainActivity.kt:511-515 | After a rename the new name is listed and the old one is not. |
| CaptureService.AnalysedSpaced | app/src/main/java/com/android/nakamonrec/MediaCaptureService.kt:162-164 | The frames analysed are drawn from the frames seen. The first is at least 500 ms after the start, consecutive ones are at least 500 ms apart, and `lastAnalysisTime` is the last of them. |
| CaptureService.AnalysedSnoc | app/src/main/java/com/android/nakamonrec/MediaCaptureService.kt:162-164 | A new frame is analysed iff 500 ms have passed since the last analysis, which then moves to it. |
| CaptureService.LiveScansAppend | app/src/main/java/com/android/nakamonrec/MediaCaptureService.kt:212-232 | Live scan tasks of a session add up over a queue's parts. |
| CaptureService.LiveScansWithout | app/src/main/java/com/android/nakamonrec/MediaCaptureService.kt:212-232 | Running a task removes at most one live scan task. |
| CaptureService.NoLiveScansOfZero | app/src/main/java/com/android/nakamonrec/MediaCaptureService.kt:261 | No pending scan belongs to session 0, so clearing the session stops every scan. |
| CaptureService.ScanEndNeverSavesDebugImage | app/src/main/java/com/android/nakamonrec/MediaCaptureService.kt:202-208 | The debug-image branch inside the stop guard can never fire. |
| CaptureService.Service.constructor | app/src/main/java/com/android/nakamonrec/MediaCaptureService.kt:50-64 | The service creates the manager and analyser, loads templates and starts Idle, with no session, no frame and an empty queue. |
| CaptureService.Service.ReloadCalibration | app/src/main/java/com/android/nakamonrec/MediaCaptureService.kt:116-127 | The stored profile, if any, becomes the analyser's profile. |
| CaptureService.Service.ReloadHistory | app/src/main/java/com/android/nakamonrec/MediaCaptureService.kt:72-78 | The history of the file in use is loaded. |
| CaptureService.Service.Start | app/src/main/java/com/android/nakamonrec/MediaCaptureService.kt:92-95 | Both reloads, keeping the service invariant. |
| CaptureService.Service.OnFrame | app/src/main/java/com/android/nakamonrec/MediaCaptureService.kt:146-185 | The frame is always kept. It is analysed (an analysis task is queued, and the time is taken) iff 500 ms have passed. Nothing else changes. |
| CaptureService.Service.RunTask | app/src/main/java/com/android/nakamonrec/MediaCaptureService.kt:172-183 | Any pending task may run next; it leaves the queue and the invariant holds (at most one live scan chain). A frame goes to HandleIdle's outcome when Idle (party remembered, a session started on VS, aborted iff a check throws) and to HandleBattle's when in battle (a result ends the session and appends WithRecord's record). A pass queues `Rescan` with one count less and runs Pass on the slots only for the current session with a frame. A rescan queues the next pass iff the session is current and a slot is empty. A scan task of an ended session changes no slot, session or state and does not abort. |
| CaptureService.Service.HandleIdle | app/src/main/java/com/android/nakamonrec/MediaCaptureService.kt:236-252 | The task aborts iff party detection or VS detection throws. A detected party is remembered. On VS a new session starts: the queue holds only its first scan, the slots are empty, state InBattle. Otherwise nothing else changes. |
| CaptureService.Service.OnIdleChecks | app/src/main/java/com/android/nakamonrec/MediaCaptureService.kt:237-251 | The same outcome, given the two detection results. |
| CaptureService.Service.StartSession | app/src/main/java/com/android/nakamonrec/MediaCaptureService.kt:240-250 | A new session: the queue is cleared and holds its first scan pass. The session id is the clock, the slots are empty, state InBattle. |
| CaptureService.Service.HandleBattle | app/src/main/java/com/android/nakamonrec/MediaCaptureService.kt:254-264 | The task aborts iff the result check throws. On a result the debug flag is set when slots are missing. The session ends, and the battle is appended and saved with the current names and party. Otherwise nothing changes. |
| CaptureService.Service.FinalizeBattle | app/src/main/java/com/android/nakamonrec/MediaCaptureService.kt:266-271 | The battle is appended and saved with the current names and party, and the state becomes Idle. |
| CaptureService.Service.RunPass | app/src/main/java/com/android/nakamonrec/MediaCaptureService.kt:212-233 | A scan pass identifies slots from the latest frame only for the current session, and a thrown pass is ignored. The next `repeatScan` is always queued, with one fewer count. |
| CaptureService.Service.RepeatScan | app/src/main/java/com/android/nakamonrec/MediaCaptureService.kt:201-234 | A scan pass is queued iff the session is current and not all slots are identified. |
| CaptureService.Service.OnDestroy | app/src/main/java/com/android/nakamonrec/MediaCaptureService.kt:301-312 | The session ends, so no pending scan belongs to it. |

## Left out

- OpenCV is not modelled, only its results. `Imgproc.resize` sizes and `TM_CCOEFF_NORMED` correlations come from the `Vision.Cv` parameter. Colour conversions (RGBA to RGB or grey) keep the image size and are otherwise opaque. Bitmap/Mat copies, `release()` and `recycle()` are left out.
- Floating point: `Float`/`Double` are exact reals. Rounding of the percentages and of `toFloat()` is not modelled.
- Searches.FindTemplateWithScale: requires a scene of at least one row. A screenshot always has one, and `coerceIn` on an empty frame is not modelled.
- BattleAnalyzer.AutoCalibrateBattleScene: requires a non-empty scene, for the same reason.
- PartyCalibration.AutoCalibrateParty: requires a non-empty scene, for the same reason.
- An exception that escapes an analysis task crashes the app. The model records it as an aborted task (`RunTask` returns `aborted`) and goes on with the state as the exception left it.
- CalibrationScreen.Screen.RunAutoCalibration: an exception from `autoCalibrateParty` on the calibration executor (CalibrationActivity.kt:95) ends the app. The model reports it as `crashed` and leaves the screen unchanged; what the process does next is not modelled.
- HistoryScreen.EditMonster: an out-of-range list write (HistoryActivity.kt:266-267) throws on the main thread and ends the app. The model reports it as `crashed` with nothing changed or saved; what the process does next is not modelled.
- Files, `SharedPreferences` and Gson are a `Disk` object. The files directory is a map from file name to history, and the two preferences are optional values. A stored file that Gson cannot parse is not modelled.
- `processImageToBitmap`, MediaProjection, VirtualDisplay and ImageReader are left out; the frame arrives as a parameter of `OnFrame`. So are the `isRunning` flag, broadcasts, notifications and `releaseTemplates`.
- Timing is left out. `System.currentTimeMillis()` is a parameter. The Handler threads are one queue of pending tasks, and `RunTask` may run any of them. This covers every order in which posted and delayed tasks can run, but not the `postDelayed` delays themselves. The `synchronized` bitmap hand-over is not modelled.
- CaptureService.Service.RunTask: requires a clock value above 0 (session id 0 means "no session").
- CaptureService.Service.HandleIdle: requires a clock value above 0, for the same reason.
- `saveDebugBitmap` and `saveDebugMat` are not modelled; only the `debugImageSavedInSession` flag is. The branch at MediaCaptureService.kt:203 is not part of `RepeatScan`, because ScanEndNeverSavesDebugImage shows it can never fire. The `DEBUG` logging is left out.
- UI is left out: labels, toasts, dialogs, adapters and `CalibrationView`'s touch editing (the edited boxes are the view's box list). The intents that ask the service to reload are also left out; the service's reload operations are modelled on their own.
- HistoryScreen.EditParty: requires the dialog's choice `which` in 0..2, as the three-item list guarantees.
- The CSV export: the document picker, the written file (its byte order mark and encoding) and the suggested file name with its `SimpleDateFormat` date are left out. The percentage text (`String.format("%.1f")`) is a parameter `pct`.
- Timestamps of new and copied records (`SimpleDateFormat(...).format(Date())`) are parameters.
- The file selector is a set of names. The order of `listFiles` is not modelled.
- MainScreen.Main.RenameFile: `renameTo` onto an existing file is modelled as replacing it. Platform-dependent failures of `renameTo` and `delete` are not modelled.
- MainScreen.RecordLineRoundTrip: holds only for fields without a double quote, because the export does not escape quotes (QuoteInFieldBreaksRow).
- CalibrationScreen.SaveDisplayedRoundTrip: holds only with at most four boxes per side in "vs" mode, since only ids 10..13 and 20..23 are read back. SaveDisplayedKeepsFirstFourEnemies shows what is lost beyond that.
- The monster catalogue asset (`monsters.json`) is a parameter of the manager's constructor. It is None when it cannot be read.

## Findings

| source | as written | input that shows it | evidently intended | confidence | as-written member | corrected member |
|---|---|---|---|---|---|---|
| app/src/main/java/com/android/nakamonrec/HistoryActivity.kt:38 | with no stored `last_file_name`, the history screen opens "battle_history" | a fresh install before any file is chosen: the capture service records into `default_record.json` (MediaCaptureService.kt:93), while the history screen shows `battle_history.json`, which is empty | the same fallback "default_record" as MainActivity.kt:379 and MediaCaptureService.kt:74 | medium, not executed | HistoryScreen.ShownFileAsWrittenMissesRecords | HistoryScreen.Open |
