/**
 * The two background tasks that touch the status map: the refresh
 * spawned by the liveness query, and the shutdown task. The file system
 * and the network are parameters: the properties file's text (`None`
 * when it cannot be read) and the outcome the remote console connection
 * would have under its 800 ms timeout.
 */
module Lifecycle {
  import opened Wrappers
  import opened Text
  import opened ServerProperties
  import opened Statuses

  /** The fixed host every probe dials. */
  const ProbeHost: string := "192.168.1.192"
  /** The console command sent after connecting: `list` to probe, `stop` to shut down. */
  datatype Command = List | Stop

  /**
   * A connection attempt: the address, the password it authenticates
   * with and the command it sends.
   */
  datatype Connection = Connection(address: string, password: string, command: Command)

  /**
   * What awaiting the timeout yields: `TimedOut` when the 800 ms elapsed
   * first; otherwise `Completed`, where `innerOk` says whether both the
   * connect and the command succeeded (the inner block's `Some(())`), and
   * is false when either failed (the `?` on `.ok()` gives `None`).
   */
  datatype ProbeOutcome = TimedOut | Completed(innerOk: bool)

  /** `format!("192.168.1.192:{}", port)`: the raw port text, never checked to be a number. */
  function ProbeAddress(port: string): (address: string)
    ensures |address| == |ProbeHost| + 1 + |port|
    ensures address[..|ProbeHost|] == ProbeHost && address[|ProbeHost|] == ':'
    ensures address[|ProbeHost| + 1..] == port
  {
    ProbeHost + ":" + port
  }

  /** The settings a background task reads from the text of the properties file. */
  function ConfigOf(text: string): RconConfig
  {
    ParseRcon(Lines(text))
  }

  /**
   * The connection a task attempts: none when the file could not be
   * read or the password is empty, otherwise one to the configured port
   * with the configured password.
   */
  function PlannedConnection(file: Option<string>, command: Command): (r: Option<Connection>)
    ensures r.Some? ==> file.Some? && r.value.password == ConfigOf(file.value).password != ""
    ensures r.Some? ==> r.value.address == ProbeAddress(ConfigOf(file.value).port) && r.value.command == command
    ensures r.None? ==> file.None? || ConfigOf(file.value).password == ""
  {
    match file
    case None => None
    case Some(text) =>
      var cfg := ConfigOf(text);
      if cfg.password == "" then None
      else Some(Connection(ProbeAddress(cfg.port), cfg.password, command))
  }

  /**
   * The value the refresh stores: `result.is_ok()` after a probe, `false`
   * when no probe is made. "Running" is stored exactly when a probe was
   * attempted and did not time out, whether or not it connected.
   */
  function RefreshedStatus(file: Option<string>, outcome: ProbeOutcome): (running: bool)
    ensures running <==> PlannedConnection(file, List).Some? && !outcome.TimedOut?
  {
    match file
    case None => false
    case Some(text) =>
      var cfg := ConfigOf(text);
      if cfg.password == "" then false
      else outcome.Completed?
  }

  /**
   * The write the shutdown task makes: none when the file cannot be read
   * (its `unwrap` panics) or when it sends the shutdown command;
   * `false` when the password is empty. It never records "running".
   */
  function StopWrite(file: Option<string>): (w: Option<bool>)
    ensures w != Some(true)
    ensures w.Some? <==> file.Some? && PlannedConnection(file, Stop).None?
  {
    match file
    case None => None
    case Some(text) => if ConfigOf(text).password == "" then Some(false) else None
  }

  /** The refresh task spawned by the liveness query. */
  method RefreshTask(cache: StatusCache, folder: string, file: Option<string>, outcome: ProbeOutcome)
    returns (dialed: Option<Connection>)
    modifies cache
    ensures dialed == PlannedConnection(file, List)
    ensures cache.statuses == old(cache.statuses)[folder := RefreshedStatus(file, outcome)]
  {
    if file.None? {
      cache.Write(folder, false);
      return None;
    }
    var cfg := ScanRcon(Lines(file.value));
    if cfg.password == "" {
      cache.Write(folder, false);
      return None;
    }
    var address := ProbeAddress(cfg.port);
    dialed := Some(Connection(address, cfg.password, List));
    cache.Write(folder, outcome.Completed?);
  }

  /**
   * The liveness query: answers with the recorded value (`false` for a
   * folder never written), then runs the refresh that later queries see.
   */
  method IsServerRunning(cache: StatusCache, folder: string, file: Option<string>, outcome: ProbeOutcome)
    returns (running: bool, dialed: Option<Connection>)
    modifies cache
    ensures running == StatusOf(old(cache.statuses), folder)
    ensures dialed == PlannedConnection(file, List)
    ensures cache.statuses == old(cache.statuses)[folder := RefreshedStatus(file, outcome)]
  {
    running := cache.Read(folder);
    dialed := RefreshTask(cache, folder, file, outcome);
  }

  /**
   * The shutdown task. Whatever the connection yields is discarded, so
   * no outcome is needed.
   */
  method StopServer(cache: StatusCache, folder: string, file: Option<string>)
    returns (dialed: Option<Connection>)
    modifies cache
    ensures dialed == PlannedConnection(file, Stop)
    ensures StopWrite(file).None? ==> cache.statuses == old(cache.statuses)
    ensures StopWrite(file).Some? ==> cache.statuses == old(cache.statuses)[folder := StopWrite(file).value]
  {
    if file.None? {
      // `read_to_string(..).unwrap()` panics: the spawned shutdown ends here.
      return None;
    }
    var cfg := ScanRcon(Lines(file.value));
    if cfg.password == "" {
      cache.Write(folder, false);
      return None;
    }
    var address := ProbeAddress(cfg.port);
    dialed := Some(Connection(address, cfg.password, Stop));
  }

  /**
   * A file with no line starting with `rcon.password=` disables the
   * console: no connection is attempted by either task, the refresh
   * records "not running" whatever the network would do, and so does
   * the shutdown task.
   */
  lemma NoPasswordLineMeansNoProbe(text: string, outcome: ProbeOutcome, command: Command)
    requires NoLineWithKey(Lines(text), PasswordKey)
    ensures PlannedConnection(Some(text), command) == None
    ensures !RefreshedStatus(Some(text), outcome)
    ensures StopWrite(Some(text)) == Some(false)
  {
    ParseRconLastMatch(Lines(text));
  }

  /**
   * With a password set, the probe dials the fixed host at the raw text
   * after the last `rcon.port=` (25575 when there is none) with the raw
   * text after the last `rcon.password=`.
   */
  lemma ProbeTargetsLastKeyLines(text: string, command: Command, p: int)
    requires IsLastWithKey(Lines(text), PasswordKey, p)
    requires |Lines(text)[p]| > |PasswordKey|
    ensures PlannedConnection(Some(text), command).Some?
    ensures PlannedConnection(Some(text), command).value.password == Lines(text)[p][|PasswordKey|..]
    ensures NoLineWithKey(Lines(text), PortKey) ==>
              PlannedConnection(Some(text), command).value.address == ProbeAddress(DefaultPort)
    ensures forall i :: IsLastWithKey(Lines(text), PortKey, i) ==>
              PlannedConnection(Some(text), command).value.address == ProbeAddress(Lines(text)[i][|PortKey|..])
  {
    var lines := Lines(text);
    ParseRconLastMatch(lines);
    assert ConfigOf(text) == ParseRcon(lines);
  }

  /**
   * Once a probe is attempted, the stored value depends only on whether
   * the timeout elapsed: a refused or failed connection that returns in
   * time is stored as "running", a slow one as "not running".
   */
  lemma StoredStatusIsTimeoutOnly(file: Option<string>, innerOk: bool)
    requires PlannedConnection(file, List).Some?
    ensures RefreshedStatus(file, Completed(innerOk))
    ensures !RefreshedStatus(file, TimedOut)
  {
  }

  /** The example file below: a port line and a password line, each ended by CRLF. */
  const ScenarioText: string := "rcon.port=25580" + "\r\n" + "rcon.password=secret" + "\r\n"

  /** The example file splits into its two lines. */
  lemma ScenarioLines()
    ensures Lines(ScenarioText) == ["rcon.port=25580", "rcon.password=secret"]
  {
    var portLine, passwordLine := "rcon.port=25580", "rcon.password=secret";
    var lines := [portLine, passwordLine];
    assert Terminated(lines[1..], "\r\n") == passwordLine + "\r\n" + "";
    assert ScenarioText == Terminated(lines, "\r\n");
    assert Writable(portLine, "\r\n") && Writable(passwordLine, "\r\n");
    LinesOfTerminated(lines, "\r\n");
  }

  /** The two lines of the example file set port 25580 and password `secret`. */
  lemma ScenarioParse()
    ensures ParseRcon(["rcon.port=25580", "rcon.password=secret"]) == RconConfig("25580", "secret")
  {
    var portLine, passwordLine := "rcon.port=25580", "rcon.password=secret";
    var lines := [portLine, passwordLine];
    assert lines[..1] == [portLine] && lines[..1][..0] == [];
    assert PortKey <= portLine;
    assert !(PasswordKey <= portLine) by { assert PasswordKey[6] != portLine[6]; }
    assert PasswordKey <= passwordLine;
    assert portLine[|PortKey|..] == "25580" && passwordLine[|PasswordKey|..] == "secret";
    assert ParseRcon(lines[..1]) == RconConfig("25580", "");
  }

  /** The example file sets port 25580 and password `secret`. */
  lemma ScenarioConfig()
    ensures ConfigOf(ScenarioText) == RconConfig("25580", "secret")
  {
    ScenarioLines();
    ScenarioParse();
  }

  /**
   * With that file both tasks dial 192.168.1.192:25580 with `secret`; the
   * refresh stores "running" after a successful round trip and also after
   * a fast refusal, and "not running" after a timeout; the shutdown task
   * writes nothing.
   */
  lemma CrlfScenario()
    ensures PlannedConnection(Some(ScenarioText), List) == Some(Connection("192.168.1.192:25580", "secret", List))
    ensures PlannedConnection(Some(ScenarioText), Stop) == Some(Connection("192.168.1.192:25580", "secret", Stop))
    ensures RefreshedStatus(Some(ScenarioText), Completed(true))
    ensures RefreshedStatus(Some(ScenarioText), Completed(false))
    ensures !RefreshedStatus(Some(ScenarioText), TimedOut)
    ensures StopWrite(Some(ScenarioText)) == None
  {
    ScenarioConfig();
    assert ProbeAddress("25580") == "192.168.1.192:25580";
  }

  /**
   * Two polls of a server never seen before, as the interface does every
   * two seconds: the first answers "not running" at once, the second
   * answers what the first poll's refresh stored.
   */
  method PollTwice(folder: string, file: Option<string>, first: ProbeOutcome, second: ProbeOutcome)
    returns (firstAnswer: bool, secondAnswer: bool)
    ensures !firstAnswer
    ensures secondAnswer == RefreshedStatus(file, first)
  {
    var cache := new StatusCache();
    var dialed;
    firstAnswer, dialed := IsServerRunning(cache, folder, file, first);
    secondAnswer, dialed := IsServerRunning(cache, folder, file, second);
  }
}
