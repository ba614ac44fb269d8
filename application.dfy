/**
  Start-up wiring: the InfluxDB settings file decides which state repository
  is used, and the KNX service exists unless its construction fails.
 */
module ApplicationService {
  import opened Model
  import Text
  import StateStore
  import FileDeviceRepository
  import Webhooks
  import KnxService

  /** The settings file: absent, present but unreadable, or read into lines. */
  datatype SettingsFile = Absent | Unreadable | Lines(lines: seq<string>)

  /**
    `findInfluxDbSettings`: the first two lines, trimmed, as URL and token;
    nothing when the file is absent or unreadable, has fewer than two lines,
    or either trimmed line is blank. Later lines are ignored.
   */
  function FindInfluxDbSettings(file: SettingsFile): (r: Option<StateStore.InfluxDbSettings>)
    ensures r.Some? <==>
      file.Lines? && |file.lines| >= 2 &&
      !Text.IsBlank(Text.Trim(file.lines[0])) && !Text.IsBlank(Text.Trim(file.lines[1]))
    ensures r.Some? ==> r.value.url == Text.Trim(file.lines[0]) && r.value.token == Text.Trim(file.lines[1])
  {
    match file
    case Lines(lines) =>
      if |lines| < 2 then None
      else
        var url := Text.Trim(lines[0]);
        var token := Text.Trim(lines[1]);
        if Text.IsBlank(url) || Text.IsBlank(token) then None
        else Some(StateStore.InfluxDbSettings(url, token))
    case _ => None
  }

  /** A trimmed line is blank exactly when the line is; a non-blank one trims to a non-empty fixed point. */
  lemma {:induction false} TrimmedLine(line: string)
    ensures Text.IsBlank(Text.Trim(line)) <==> Text.IsBlank(line)
    ensures !Text.IsBlank(line) ==> Text.Trim(line) != [] && Text.Trim(Text.Trim(line)) == Text.Trim(line)
  {
    Text.TrimBlank(line);
    Text.TrimIdempotent(line);
  }

  /**
    Settings are found exactly when the first two raw lines are not blank,
    and both values are then non-empty and already trimmed.
   */
  lemma {:induction false} SettingsAreTrimmed(file: SettingsFile)
    ensures FindInfluxDbSettings(file).Some? <==>
      file.Lines? && |file.lines| >= 2 && !Text.IsBlank(file.lines[0]) && !Text.IsBlank(file.lines[1])
    ensures FindInfluxDbSettings(file).Some? ==>
      var s := FindInfluxDbSettings(file).value;
      s.url != [] && s.token != [] && Text.Trim(s.url) == s.url && Text.Trim(s.token) == s.token
  {
    if file.Lines? && |file.lines| >= 2 {
      TrimmedLine(file.lines[0]);
      TrimmedLine(file.lines[1]);
    }
  }

  /** Lines after the second never matter. */
  lemma {:induction false} LaterLinesIgnored(first: string, second: string, rest: seq<string>)
    ensures FindInfluxDbSettings(Lines([first, second] + rest)) == FindInfluxDbSettings(Lines([first, second]))
  {
    assert ([first, second] + rest)[0] == first && ([first, second] + rest)[1] == second;
  }

  /** The InfluxDB repository is used exactly when settings were found, with those settings. */
  function SelectBackend(settings: Option<StateStore.InfluxDbSettings>): (b: StateStore.Backend)
    ensures b.InfluxDb? <==> settings.Some?
    ensures settings.Some? ==> b.settings == settings.value
  {
    match settings
    case Some(s) => StateStore.InfluxDb(s)
    case None => StateStore.CsvFile
  }

  /**
    The application service after `init`. `knxAvailable` is whether
    `knxService` is set; `initialReads` are the read requests of the first
    resynchronisation.
   */
  class Application {
    const devices: seq<Device>
    const repo: StateStore.DeviceStateRepository
    const webhooks: set<Webhook>
    const knxAvailable: bool
    const initialReads: seq<KnxService.ReadRequest>

    /**
      `init`. `knxConstructs` is whether constructing the KNX service returns
      normally; `readsThrow` whether the initial `readAllDeviceStates` throws
      (modelled as throwing before its first request). Either exception is
      caught; only the first leaves the service unset.
     */
    constructor (deviceFile: ConfigFile<seq<Device>>, settingsFile: SettingsFile, webhookFile: ConfigFile<seq<Webhook>>,
                 knxConstructs: bool, readsThrow: bool)
      ensures devices == FileDeviceRepository.Load(deviceFile)
      ensures fresh(repo) && repo.Valid() && repo.states == map[] && repo.history == []
      ensures repo.backend == SelectBackend(FindInfluxDbSettings(settingsFile))
      ensures webhooks == Webhooks.Load(webhookFile)
      ensures knxAvailable <==> knxConstructs
      ensures initialReads == if knxConstructs && !readsThrow then KnxService.ReadRequests(devices) else []
    {
      var loaded := FileDeviceRepository.Load(deviceFile);
      devices := loaded;
      var settings := FindInfluxDbSettings(settingsFile);
      repo := new StateStore.DeviceStateRepository(SelectBackend(settings));
      webhooks := Webhooks.Load(webhookFile);
      var knxServiceTemp := false;
      var requests := [];
      if knxConstructs {
        knxServiceTemp := true;
        if !readsThrow {
          requests := KnxService.ReadAllDeviceStates(loaded);
        }
      }
      knxAvailable := knxServiceTemp;
      initialReads := requests;
    }
  }
}
