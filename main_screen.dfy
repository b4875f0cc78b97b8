/**
 * The main screen's file management (`MainActivity.kt`): the name of the history file in use,
 * the file selector, and creating, renaming, deleting, clearing and exporting a history file.
 */
module MainScreen {
  import opened Wrappers
  import opened DataModels
  import opened Storage
  import opened BattleData
  import opened Text

  /** The file in use when none has been chosen. */
  const DefaultRecord: string := "default_record"

  /** `getCurrentFileName`: the stored `last_file_name`, or "default_record". */
  function CurrentFileName(stored: Option<string>): (name: string)
    ensures stored.None? ==> name == DefaultRecord
    ensures stored.Some? ==> name == stored.value
  {
    stored.GetOr(DefaultRecord)
  }

  // ---------------------------------------------------------------------------------------
  // isValidFileName

  /** The characters a file name may not contain. */
  const InvalidChars: seq<char> := ['\\', '/', ':', '*', '?', '"', '<', '>', '|', '.']

  /** `name.none { it in invalidChars }`, one character at a time. */
  function NoInvalidChar(name: string): bool
    decreases |name|
  {
    name == [] || (name[0] !in InvalidChars && NoInvalidChar(name[1..]))
  }

  /** `isValidFileName`. */
  function IsValidFileName(name: string): bool {
    name != [] && NoInvalidChar(name)
  }

  lemma {:induction false} NoInvalidCharAll(name: string)
    ensures NoInvalidChar(name) <==> forall i :: 0 <= i < |name| ==> name[i] !in InvalidChars
    decreases |name|
  {
    if name != [] {
      NoInvalidCharAll(name[1..]);
      assert forall i :: 1 <= i < |name| ==> name[i] == name[1..][i - 1];
    }
  }

  /**
   * A name is valid exactly when it is not empty and none of its characters is one of
   * `\ / : * ? " < > | .`; in particular a valid name has no dot.
   */
  lemma IsValidFileNameIff(name: string)
    ensures IsValidFileName(name) <==> |name| > 0 && forall i :: 0 <= i < |name| ==> name[i] !in InvalidChars
    ensures IsValidFileName(name) ==> NoDot(name)
  {
    NoInvalidCharAll(name);
  }

  // ---------------------------------------------------------------------------------------
  // The file selector

  /** The asset name the selector hides. */
  const CatalogueFile: string := "monsters.json"

  /** `showFileSelectorDialog`: the base names of the ".json" files other than "monsters.json" (in no fixed order). */
  function SelectorNames(files: set<string>): set<string> {
    set f | f in files && Extension(f) == "json" && f != CatalogueFile :: BaseName(f)
  }

  /** The history file of a name without dots is offered under that name, unless the name is "monsters". */
  lemma SelectorListsFile(files: set<string>, name: string)
    requires NoDot(name) && JsonName(name) in files && name != "monsters"
    ensures name in SelectorNames(files)
  {
    var f := JsonName(name);
    WithExtension(name, "json");
    assert f == name + "." + "json";
    JsonNameInjective(name, "monsters");
    assert f != CatalogueFile;
    assert BaseName(f) in SelectorNames(files);
  }

  /** A name the selector offers names a ".json" file other than "monsters.json". */
  lemma SelectorOffersFile(files: set<string>, name: string)
    requires name in SelectorNames(files)
    ensures NoDot(name) ==> JsonName(name) in files && name != "monsters"
  {
    var g :| g in files && Extension(g) == "json" && g != CatalogueFile && BaseName(g) == name;
    SplitAtLastDot(g);
    assert g == JsonName(name);
  }

  /**
   * A name without dots is offered exactly when its history file exists, unless the name is
   * "monsters".
   */
  lemma SelectorNamesIff(files: set<string>, name: string)
    requires NoDot(name)
    ensures name in SelectorNames(files) <==> JsonName(name) in files && name != "monsters"
  {
    if name in SelectorNames(files) {
      SelectorOffersFile(files, name);
    }
    if JsonName(name) in files && name != "monsters" {
      SelectorListsFile(files, name);
    }
  }

  /** "monsters" passes `isValidFileName`, yet a file created under that name is never offered. */
  lemma MonstersIsHidden(files: set<string>)
    ensures IsValidFileName("monsters")
    ensures "monsters" !in SelectorNames(files + {JsonName("monsters")})
  {
    var m := "monsters";
    assert forall i :: 0 <= i < |m| ==> 'a' <= m[i] <= 'z';
    assert forall k :: 0 <= k < |InvalidChars| ==> !('a' <= InvalidChars[k] <= 'z');
    IsValidFileNameIff(m);
    SelectorNamesIff(files + {JsonName(m)}, m);
  }

  // ---------------------------------------------------------------------------------------
  // Rename

  /** The files after `oldFile.renameTo(newFile)`: the content moves, replacing whatever `to` held. */
  function Renamed(files: map<string, BattleHistory>, from: string, to: string): (r: map<string, BattleHistory>)
    requires from in files
    ensures r.Keys == files.Keys - {from} + {to}
    ensures r[to] == files[from]
    ensures forall k :: k in files && k != from && k != to ==> r[k] == files[k]
  {
    (files - {from})[to := files[from]]
  }

  /** Renaming back undoes a rename that replaced nothing. */
  lemma RenameBack(files: map<string, BattleHistory>, from: string, to: string)
    requires from in files && to !in files
    ensures Renamed(Renamed(files, from, to), to, from) == files
  {
    var r := Renamed(Renamed(files, from, to), to, from);
    assert r.Keys == files.Keys;
    forall k | k in files
      ensures r[k] == files[k]
    {
    }
  }

  /** The stored name after a successful rename: it follows the file only when it named the renamed one. */
  function RenamedCurrent(stored: Option<string>, oldName: string, newName: string): (r: Option<string>)
    ensures CurrentFileName(stored) == oldName ==> r == Some(newName)
    ensures CurrentFileName(stored) != oldName ==> r == stored
  {
    if CurrentFileName(stored) == oldName then Some(newName) else stored
  }

  /**
   * After a rename the name in use still opens the same history: the renamed one when it was
   * in use, the same file otherwise (unless that file was the one replaced).
   */
  lemma RenameKeepsCurrentHistory(files: map<string, BattleHistory>, stored: Option<string>, oldName: string, newName: string)
    requires JsonName(oldName) in files && oldName != newName
    requires CurrentFileName(stored) != newName
    ensures var before := JsonName(CurrentFileName(stored));
      var after := JsonName(CurrentFileName(RenamedCurrent(stored, oldName, newName)));
      var moved := Renamed(files, JsonName(oldName), JsonName(newName));
      before in files ==> after in moved && moved[after] == files[before]
  {
    var cur := CurrentFileName(stored);
    if cur != oldName && JsonName(cur) in files {
      JsonNameInjective(cur, oldName);
      JsonNameInjective(cur, newName);
    }
  }

  lemma JsonNameInjective(a: string, b: string)
    ensures JsonName(a) == JsonName(b) ==> a == b
  {
    if JsonName(a) == JsonName(b) {
      assert |a| == |b|;
      assert a == JsonName(a)[..|a|];
    }
  }

  // ---------------------------------------------------------------------------------------
  // The CSV export

  /** `getOrElse(k) { "" }`. */
  function Slot(names: seq<string>, k: nat): string {
    if k < |names| then names[k] else ""
  }

  /** "パーティ{i+1}". */
  function PartyLabel(partyIndex: int): string {
    "パーティ" + IntText(partyIndex + 1)
  }

  /** The eleven fields of a record's line: time, result, party, four own and four enemy slots. */
  function RecordFields(r: BattleRecord): (fs: seq<string>)
    ensures |fs| == 11
    ensures fs[0] == r.timestamp && fs[1] == r.result && fs[2] == PartyLabel(r.partyIndex)
    ensures forall k :: 0 <= k < 4 ==> fs[3 + k] == Slot(r.myParty, k) && fs[7 + k] == Slot(r.enemyParty, k)
  {
    [r.timestamp, r.result, PartyLabel(r.partyIndex),
     Slot(r.myParty, 0), Slot(r.myParty, 1), Slot(r.myParty, 2), Slot(r.myParty, 3),
     Slot(r.enemyParty, 0), Slot(r.enemyParty, 1), Slot(r.enemyParty, 2), Slot(r.enemyParty, 3)]
  }

  function Quoted(f: string): string {
    "\"" + f + "\""
  }

  /** Fields, each in double quotes, separated by commas; nothing is escaped. */
  function QuotedRow(fs: seq<string>): string
    decreases |fs|
  {
    if fs == [] then ""
    else if |fs| == 1 then Quoted(fs[0])
    else Quoted(fs[0]) + "," + QuotedRow(fs[1..])
  }

  /** A record's CSV line. */
  function RecordLine(r: BattleRecord): string {
    QuotedRow(RecordFields(r))
  }

  /** Reading a row of quoted fields: None when the text is not such a row. */
  function ParseRow(s: string): Option<seq<string>>
    decreases |s|
  {
    if s == [] || s[0] != '"' then None
    else
      var body := s[1..];
      var j := FirstIndex(body, '"');
      if j == |body| then None
      else
        var rest := body[j + 1..];
        if rest == [] then Some([body[..j]])
        else if rest[0] != ',' then None
        else
          match ParseRow(rest[1..])
          case None => None
          case Some(more) => Some([body[..j]] + more)
  }

  predicate NoQuote(f: string) {
    forall i :: 0 <= i < |f| ==> f[i] != '"'
  }

  /** Reading the first quoted field of a row, when it holds no double quote. */
  lemma ParseRowFirst(f: string, tail: string)
    requires NoQuote(f)
    ensures ParseRow(Quoted(f) + tail)
      == if tail == [] then Some([f])
         else if tail[0] != ',' then None
         else (match ParseRow(tail[1..])
               case None => None
               case Some(more) => Some([f] + more))
  {
    var s := Quoted(f) + tail;
    var body := f + ['"'] + tail;
    assert s != [] && s[0] == '"' && s[1..] == body by {
      assert s == ['"'] + body;
    }
    assert FirstIndex(body, '"') == |f| by {
      FirstIndexAfter(f, '"', tail);
    }
    assert body[..|f|] == f && body[|f| + 1..] == tail;
  }

  /** Reading a row gives back its fields, when no field holds a double quote. */
  lemma {:induction false} ParseQuotedRow(fs: seq<string>)
    requires fs != []
    requires forall k :: 0 <= k < |fs| ==> NoQuote(fs[k])
    ensures ParseRow(QuotedRow(fs)) == Some(fs)
    decreases |fs|
  {
    if |fs| == 1 {
      assert QuotedRow(fs) == Quoted(fs[0]) + "";
      ParseRowFirst(fs[0], "");
      assert fs == [fs[0]];
    } else {
      var tail := "," + QuotedRow(fs[1..]);
      assert QuotedRow(fs) == Quoted(fs[0]) + tail;
      assert tail[0] == ',' && tail[1..] == QuotedRow(fs[1..]) by {
        assert tail == [','] + QuotedRow(fs[1..]);
      }
      ParseQuotedRow(fs[1..]);
      ParseRowFirst(fs[0], tail);
      assert [fs[0]] + fs[1..] == fs;
    }
  }

  /** Every record line reads back as its eleven fields, when none of them holds a double quote. */
  lemma RecordLineRoundTrip(r: BattleRecord)
    requires forall k :: 0 <= k < 11 ==> NoQuote(RecordFields(r)[k])
    ensures ParseRow(RecordLine(r)) == Some(RecordFields(r))
  {
    ParseQuotedRow(RecordFields(r));
  }

  /**
   * Without escaping, a double quote inside the first field breaks the row: a row whose first
   * field is `a"b`, whatever follows it, does not read back (the field closes after `a`).
   */
  lemma QuoteInFieldBreaksRow(tail: string)
    ensures ParseRow(Quoted("a\"b") + tail) == None
  {
    var s := Quoted("a\"b") + tail;
    assert s == ['"', 'a', '"', 'b', '"'] + tail;
    var body := s[1..];
    assert body == ['a', '"', 'b', '"'] + tail;
    assert FirstIndex(body, '"') == 1 by {
      assert body[0] == 'a' && body[1] == '"';
    }
    assert body[2..][0] == 'b';
  }

  /** The column captions: time, result, party, own slots 1-4, enemy slots 1-4. */
  const Captions: seq<string> :=
    ["戦闘終了時刻", "勝敗", "選択パーティ", "自分1", "自分2", "自分3", "自分4", "相手1", "相手2", "相手3", "相手4"]

  /** The caption line, quoted like the record lines. */
  function Header(): string {
    QuotedRow(Captions)
  }

  /** "{n}戦 {w}勝 {l}敗 (勝率{rate}%)", the rate as `pct` formats it. */
  function Score(wins: int, losses: int, rate: real, pct: real -> string): string {
    IntText(wins + losses) + "戦 " + IntText(wins) + "勝 " + IntText(losses) + "敗 (勝率" + pct(rate) + "%)"
  }

  /** The overall summary line. */
  function SummaryLine(s: BattleStats, pct: real -> string): string {
    "総合戦績," + Score(s.totalWins, s.totalLosses, s.winRate, pct)
  }

  /** A party's summary line. */
  function PartyLine(p: PartyStat, pct: real -> string): string {
    "パーティ" + IntText(p.index + 1) + "戦績," + Score(p.wins, p.losses, p.winRate, pct)
  }

  /** `PartyLine` with the rate format fixed. */
  function PartyLineWith(pct: real -> string): PartyStat -> string {
    p => PartyLine(p, pct)
  }

  /** The lines before the records: the summary, one line per party, an empty line and the captions. */
  function HeadLines(s: BattleStats, pct: real -> string): seq<string> {
    [SummaryLine(s, pct)] + Mapped(s.partyStats, PartyLineWith(pct)) + ["", Header()]
  }

  /** The lines of the exported CSV of a history. */
  function CsvLines(h: BattleHistory, pct: real -> string): seq<string> {
    HeadLines(Statistics(h), pct) + Mapped(h.records, RecordLine)
  }

  /** The head lines of three parties' statistics: the summary, the three party lines, an empty line and the captions. */
  lemma HeadLayout(s: BattleStats, pct: real -> string)
    requires |s.partyStats| == 3
    ensures var hl := HeadLines(s, pct);
      && |hl| == 6
      && hl[0] == SummaryLine(s, pct)
      && (forall i :: 0 <= i < 3 ==> hl[1 + i] == PartyLine(s.partyStats[i], pct))
      && hl[4] == "" && hl[5] == Header()
  {
  }

  /**
   * The CSV's layout: the six head lines of the history's statistics (parties 1, 2 and 3), then
   * one line per record, in list order.
   */
  lemma CsvLayout(h: BattleHistory, pct: real -> string)
    ensures |Statistics(h).partyStats| == 3
    ensures CsvLines(h, pct)[..6] == HeadLines(Statistics(h), pct)
    ensures |CsvLines(h, pct)| == 6 + |h.records|
    ensures forall k :: 0 <= k < |h.records| ==> CsvLines(h, pct)[6 + k] == RecordLine(h.records[k])
  {
    var ls := CsvLines(h, pct);
    assert |HeadLines(Statistics(h), pct)| == 6;
    assert ls[6..] == Mapped(h.records, RecordLine);
    forall k | 0 <= k < |h.records|
      ensures ls[6 + k] == RecordLine(h.records[k])
    {
      assert ls[6 + k] == ls[6..][k];
    }
  }

  // ---------------------------------------------------------------------------------------
  // The screen's file actions

  class Main {
    const disk: Disk

    constructor (disk: Disk)
      ensures this.disk == disk
    {
      this.disk := disk;
    }

    /** "Use this file": the chosen name is stored. */
    method UseFile(fileName: string)
      modifies disk
      ensures disk.lastFileName == Some(fileName)
      ensures disk.files == old(disk.files) && disk.calibration == old(disk.calibration)
    {
      disk.lastFileName := Some(fileName);
    }

    /**
     * `showCreateFileDialog`: for a valid name, the file is written empty (replacing a file of
     * that name) and becomes the file in use; an invalid name changes nothing.
     */
    method CreateFile(newName: string, catalogue: Option<seq<MonsterData>>)
      modifies disk
      ensures IsValidFileName(newName) ==> disk.files == old(disk.files)[JsonName(newName) := NewHistory()]
      ensures IsValidFileName(newName) ==> disk.lastFileName == Some(newName)
      ensures !IsValidFileName(newName) ==> disk.files == old(disk.files) && disk.lastFileName == old(disk.lastFileName)
      ensures disk.calibration == old(disk.calibration)
    {
      if IsValidFileName(newName) {
        var dm := new DataManager(disk, catalogue);
        dm.currentFileName := newName;
        dm.ResetHistory();
        disk.lastFileName := Some(newName);
      }
    }

    /**
     * `showRenameDialog`: for a valid name different from the old one, the file is renamed
     * when it exists, and the stored name follows it when it was in use; otherwise nothing
     * changes. `renamed` is whether the rename took place.
     */
    method RenameFile(oldName: string, newName: string) returns (renamed: bool)
      modifies disk
      ensures renamed <==> IsValidFileName(newName) && newName != oldName && JsonName(oldName) in old(disk.files)
      ensures renamed ==> disk.files == Renamed(old(disk.files), JsonName(oldName), JsonName(newName))
      ensures renamed ==> disk.lastFileName == RenamedCurrent(old(disk.lastFileName), oldName, newName)
      ensures !renamed ==> disk.files == old(disk.files) && disk.lastFileName == old(disk.lastFileName)
      ensures disk.calibration == old(disk.calibration)
    {
      renamed := false;
      if IsValidFileName(newName) && newName != oldName {
        var oldFile, newFile := JsonName(oldName), JsonName(newName);
        if oldFile in disk.files {
          disk.files := Renamed(disk.files, oldFile, newFile);
          renamed := true;
          if CurrentFileName(disk.lastFileName) == oldName {
            disk.lastFileName := Some(newName);
          }
        }
      }
    }

    /**
     * `showDeleteConfirmDialog`: the file is removed when it exists, and when it was in use the
     * stored name becomes "default_record". `deleted` is whether a file was removed.
     */
    method DeleteFile(fileName: string) returns (deleted: bool)
      modifies disk
      ensures deleted <==> JsonName(fileName) in old(disk.files)
      ensures disk.files == old(disk.files) - {JsonName(fileName)}
      ensures deleted && CurrentFileName(old(disk.lastFileName)) == fileName ==> disk.lastFileName == Some(DefaultRecord)
      ensures !(deleted && CurrentFileName(old(disk.lastFileName)) == fileName) ==> disk.lastFileName == old(disk.lastFileName)
      ensures disk.calibration == old(disk.calibration)
    {
      var file := JsonName(fileName);
      deleted := file in disk.files;
      if deleted {
        disk.files := disk.files - {file};
        if CurrentFileName(disk.lastFileName) == fileName {
          disk.lastFileName := Some(DefaultRecord);
        }
      }
    }

    /** `showResetHistoryConfirmDialog`: the file is loaded and cleared; the stored name does not change. */
    method ClearFile(fileName: string, catalogue: Option<seq<MonsterData>>)
      modifies disk
      ensures disk.files == old(disk.files)[JsonName(fileName) := NewHistory()]
      ensures disk.lastFileName == old(disk.lastFileName) && disk.calibration == old(disk.calibration)
    {
      var dm := new DataManager(disk, catalogue);
      dm.LoadHistory(fileName);
      dm.ResetHistory();
    }

    /**
     * `exportHistoryToCsv`: the text given to the document picker, built line by line with
     * `appendLine`: the lines of `CsvLines` for the loaded history.
     */
    method ExportCsv(fileName: string, catalogue: Option<seq<MonsterData>>, pct: real -> string) returns (csv: string)
      ensures csv == Joined(CsvLines(LoadedHistory(disk.files, fileName), pct))
    {
      var dm := new DataManager(disk, catalogue);
      dm.LoadHistory(fileName);
      csv := CsvText(dm.history, pct);
    }
  }

  /** The summary, party, blank and caption lines appended to an empty builder. */
  method AppendHead(stats: BattleStats, pct: real -> string) returns (csv: string, ghost lines: seq<string>)
    ensures lines == HeadLines(stats, pct) && csv == Joined(lines)
  {
    csv, lines := AppendLine("", [], SummaryLine(stats, pct));
    assert lines == [SummaryLine(stats, pct)];
    csv, lines := AppendEach(csv, lines, stats.partyStats, PartyLineWith(pct));
    csv, lines := AppendLine(csv, lines, "");
    csv, lines := AppendLine(csv, lines, Header());
    HeadLinesAppended(stats, pct);
  }

  /** The CSV text of a history: the head lines of its statistics, then one line per record. */
  method CsvText(h: BattleHistory, pct: real -> string) returns (csv: string)
    ensures csv == Joined(CsvLines(h, pct))
  {
    ghost var lines: seq<string>;
    csv, lines := AppendHead(Statistics(h), pct);
    csv, lines := AppendEach(csv, lines, h.records, RecordLine);
  }

  /** `xs.forEach { sb.appendLine(f(it)) }`. */
  method AppendEach<T>(text: string, ghost lines: seq<string>, xs: seq<T>, f: T -> string)
    returns (text': string, ghost lines': seq<string>)
    requires text == Joined(lines)
    ensures lines' == lines + Mapped(xs, f) && text' == Joined(lines')
  {
    text', lines' := text, lines;
    for i := 0 to |xs|
      invariant lines' == lines + Mapped(xs[..i], f)
      invariant text' == Joined(lines')
    {
      MappedSnoc(xs, i, f);
      SnocAssoc(lines, Mapped(xs[..i], f), f(xs[i]));
      text', lines' := AppendLine(text', lines', f(xs[i]));
    }
    assert xs[..|xs|] == xs;
  }

  /** `StringBuilder.appendLine`: the text grows by the line and a line feed. */
  method AppendLine(text: string, ghost lines: seq<string>, line: string) returns (text': string, ghost lines': seq<string>)
    requires text == Joined(lines)
    ensures lines' == lines + [line] && text' == Joined(lines')
  {
    JoinedSnoc(lines, line);
    text' := text + line + "\n";
    lines' := lines + [line];
  }

  /** The head lines as four `appendLine` calls make them. */
  lemma HeadLinesAppended(s: BattleStats, pct: real -> string)
    ensures HeadLines(s, pct) == (([SummaryLine(s, pct)] + Mapped(s.partyStats, PartyLineWith(pct))) + [""]) + [Header()]
  {
  }

  lemma SnocAssoc<T>(a: seq<T>, b: seq<T>, x: T)
    ensures (a + b) + [x] == a + (b + [x])
  {
  }

  /** The history `loadHistory` gives for a name: the stored one, or an empty one when there is no such file. */
  function LoadedHistory(files: map<string, BattleHistory>, fileName: string): (h: BattleHistory)
    ensures JsonName(fileName) !in files ==> h == NewHistory()
  {
    if JsonName(fileName) in files then files[JsonName(fileName)] else NewHistory()
  }

  /** A name created is offered by the selector, and a name deleted is not (names other than "monsters"). */
  lemma CreatedListedDeletedNot(files: map<string, BattleHistory>, name: string)
    requires IsValidFileName(name) && name != "monsters"
    ensures name in SelectorNames(files[JsonName(name) := NewHistory()].Keys)
    ensures name !in SelectorNames((files - {JsonName(name)}).Keys)
  {
    IsValidFileNameIff(name);
    SelectorNamesIff(files[JsonName(name) := NewHistory()].Keys, name);
    SelectorNamesIff((files - {JsonName(name)}).Keys, name);
  }

  /** After a rename the selector offers the new name and no longer the old one. */
  lemma RenamedListed(files: map<string, BattleHistory>, oldName: string, newName: string)
    requires IsValidFileName(oldName) && IsValidFileName(newName) && oldName != newName && newName != "monsters"
    requires JsonName(oldName) in files
    ensures var names := SelectorNames(Renamed(files, JsonName(oldName), JsonName(newName)).Keys);
      newName in names && oldName !in names
  {
    IsValidFileNameIff(oldName);
    IsValidFileNameIff(newName);
    JsonNameInjective(oldName, newName);
    var ks := Renamed(files, JsonName(oldName), JsonName(newName)).Keys;
    SelectorNamesIff(ks, newName);
    SelectorNamesIff(ks, oldName);
  }
}
