/**
 * The application's persistent state, shared by the service and the screens: the history files
 * in the private files directory (one JSON document per file, keyed by its full name) and the
 * two preference entries `last_file_name` and `calibration_data`. JSON encoding is taken to
 * round-trip exactly, so a file is stored as the value it encodes.
 */
module Storage {
  import opened Wrappers
  import opened DataModels

  /** The file a history named `name` is stored in. */
  function JsonName(name: string): string {
    name + ".json"
  }

  class Disk {
    var files: map<string, BattleHistory>
    var lastFileName: Option<string>
    var calibration: Option<CalibrationData>

    constructor (files: map<string, BattleHistory>, lastFileName: Option<string>, calibration: Option<CalibrationData>)
      ensures this.files == files && this.lastFileName == lastFileName && this.calibration == calibration
    {
      this.files := files;
      this.lastFileName := lastFileName;
      this.calibration := calibration;
    }
  }
}
