# McServer liveness probing and status cache, in Dafny

McServer is a desktop manager for locally hosted Minecraft servers. Its Rust
back end (`src-tauri/src/lib.rs`) keeps a process-wide map from a server's
folder name to whether it was last seen running. Two background tasks update
that map:

- The **liveness query** `is_server_running` returns the recorded value,
  which is `false` for a folder never seen. It also spawns a refresh. The
  refresh reads the folder's `server.properties`, takes the remote console
  (RCON) port and password from it, and dials `192.168.1.192:<port>` under an
  800 ms timeout. It then records the outcome.
- The **shutdown task** `stop_server` reads the same settings and sends `stop`.

The model also covers the description lookup, which reads the `motd=` line of
the same file.

Files:

- `wrappers.dfy`: `Option`.
- `text.dfy`: Rust's `str::lines`, `char::is_whitespace` and `str::trim`.
- `server_properties.dfy`: the RCON key scan and the `motd=` scan. Each is a
  loop (method) proved against a specification function. Lemmas characterise
  those functions: last match wins for RCON keys, first match wins for `motd=`.
- `status_cache.dfy`: the status map as a class with a `map<string, bool>`
  field and `Read`/`Write` methods. Lemmas cover sequences of completed writes.
- `lifecycle.dfy`: the refresh task, the liveness query and the shutdown task.
  They are methods over the cache. The file text and the network outcome are
  parameters. Specification functions state which connection is attempted and
  what is written.

External inputs become parameters:

- The properties file is given as its text. `None` means `read_to_string`
  failed.
- For the description, the file is given as the items of a buffered line
  reader. `None` means `File::open` failed, and `Unreadable` marks a line that
  was not valid UTF-8.
- The RCON round trip is a `ProbeOutcome`: `TimedOut`, or `Completed(innerOk)`.
  This is what awaiting the 800 ms timeout yields.
- The connection a task would open is returned as `dialed`. "No connection is
  attempted" means `dialed == None`.

The refresh stores `result.is_ok()`. That is true whenever the 800 ms timeout
did not elapse, even if the connect or the `list` command failed inside it, so
a fast connection refusal is recorded as "running".
`StoredStatusIsTimeoutOnly` and `CrlfScenario` state this.

## Model

| member | source | states |
|---|---|---|
| `Text.Lines` | src-tauri/src/lib.rs:145 | `content.lines()`: no resulting line contains a line feed; the text is empty exactly when there are no lines |
| `Text.LinesOfTerminatedLine` | src-tauri/src/lib.rs:200 | a line ended by `\n` (or `\r\n`) is one line with the `\r` dropped, followed by the lines of the rest |
| `Text.LinesOfTerminated` | src-tauri/src/lib.rs:140-145 | round trip: lines written out with `\r\n` endings (or with `\n` endings, when no line ends in `\r`) are split back into exactly those lines |
| `Text.Trim` | src-tauri/src/lib.rs:79 | `line.trim()`: the result neither starts nor ends with Unicode white space, and is empty exactly when the line is all white space |
| `Text.TrimIsSlice` | src-tauri/src/lib.rs:79 | `line.trim()` is the slice of the line after its leading white space, and everything cut off before and after it is white space |
| `ServerProperties.ScanLine` | src-tauri/src/lib.rs:146-151 | one loop iteration sets at most one of port and password (the keys are disjoint), and a line starting with neither key changes nothing |
| `ServerProperties.ScanRcon` | src-tauri/src/lib.rs:142-152 | the scan loop, starting from port `25575` and password `""`, computes `ParseRcon` of the lines |
| `ServerProperties.NoMatchKeepsDefault` | src-tauri/src/lib.rs:142-143 | if no line starts with a key, that key's field keeps its default |
| `ServerProperties.LastMatchSetsValue` | src-tauri/src/lib.rs:145-151 | a key's field is the untrimmed rest of the last line that starts with that key |
| `ServerProperties.ParseRconLastMatch` | src-tauri/src/lib.rs:197-207 | both fields together: default `25575` / `""` when no line has the key, otherwise the exact rest of the last line with the key |
| `ServerProperties.UnkeyedLineIgnored` | src-tauri/src/lib.rs:200-206 | inserting a line that starts with neither key anywhere in the file leaves the settings unchanged |
| `ServerProperties.IndentedOrCommentedKeyIgnored` | src-tauri/src/lib.rs:146-150 | a line starting with white space or `#` is ignored even if a key follows, because nothing is trimmed |
| `ServerProperties.DescriptionOf` | src-tauri/src/lib.rs:66-89 | the loop with its `continue`s and early return computes `Motd`, and gives `""` when the file cannot be opened |
| `ServerProperties.MotdIsFirstMotdLine` | src-tauri/src/lib.rs:79-86 | the description is the rest of the first readable line whose trimmed text starts with `motd=`; the comment and blank checks never change which line that is |
| `ServerProperties.NoMotdLineGivesEmpty` | src-tauri/src/lib.rs:89 | with no such line the description is `""` |
| `Statuses.StatusCache.constructor` | src-tauri/src/lib.rs:11 | the map starts empty |
| `Statuses.StatusCache.Read` | src-tauri/src/lib.rs:232 | reads a folder's entry, or `false` when the folder has none |
| `Statuses.StatusCache.Write` | src-tauri/src/lib.rs:229 | upsert: the folder's entry becomes the value, the keys gain only that folder, and other entries are unchanged |
| `Statuses.LastWriteWins` | src-tauri/src/lib.rs:229 | after any sequence of completed writes, a folder reads as the value of the last write to it |
| `Statuses.UnwrittenFolderUnchanged` | src-tauri/src/lib.rs:155 | writes to other folders neither add nor change a folder's entry, so an unwritten folder keeps reading its old value (`false` if never written) |
| `Lifecycle.ProbeAddress` | src-tauri/src/lib.rs:214 | the address is the fixed host, a colon and the raw port text, unvalidated |
| `Lifecycle.PlannedConnection` | src-tauri/src/lib.rs:209-221 | a connection is attempted only with a readable file and a non-empty password; it uses the configured password, the probe address of the configured port and the task's command |
| `Lifecycle.RefreshedStatus` | src-tauri/src/lib.rs:189-229 | the refresh stores "running" exactly when a connection was attempted and the timeout did not elapse |
| `Lifecycle.StopWrite` | src-tauri/src/lib.rs:140-157 | the shutdown task never records "running"; it writes (`false`) exactly when the file was read and no connection is attempted |
| `Lifecycle.RefreshTask` | src-tauri/src/lib.rs:184-230 | the refresh dials `PlannedConnection(file, List)` and upserts `RefreshedStatus` for the folder, changing no other entry |
| `Lifecycle.IsServerRunning` | src-tauri/src/lib.rs:177-233 | the query returns the value recorded before it (`false` if unseen); the refresh's write is the new state |
| `Lifecycle.StopServer` | src-tauri/src/lib.rs:132-174 | the shutdown task dials `PlannedConnection(file, Stop)`; an unreadable file (the `unwrap` panic) leaves the map untouched, and an empty password writes only `false` for the folder |
| `Lifecycle.PollTwice` | src-tauri/src/lib.rs:182-232 | stale read, then refresh: the first query for an unseen server answers `false`, and the next query answers what the first query's refresh stored |
| `Lifecycle.NoPasswordLineMeansNoProbe` | src-tauri/src/lib.rs:197-212 | a file with no `rcon.password=` line: neither task dials, the refresh stores `false` whatever the network does, and the shutdown task writes `false` |
| `Lifecycle.ProbeTargetsLastKeyLines` | src-tauri/src/lib.rs:197-219 | with a non-empty last password line, a connection is attempted with that raw password, to the probe address of the raw rest of the last `rcon.port=` line, or of `25575` when there is none |
| `Lifecycle.StoredStatusIsTimeoutOnly` | src-tauri/src/lib.rs:216-229 | once a probe is attempted, a completed round trip stores `true` even when connect or `list` failed, and a timeout stores `false` |
| `Lifecycle.ScenarioLines` | src-tauri/src/lib.rs:200 | the CRLF example file splits into its two lines, without the `\r` |
| `Lifecycle.ScenarioParse` | src-tauri/src/lib.rs:200-207 | the lines `rcon.port=25580` and `rcon.password=secret` parse to port `25580` and password `secret` |
| `Lifecycle.ScenarioConfig` | src-tauri/src/lib.rs:197-207 | so the CRLF example file configures exactly those values |
| `Lifecycle.CrlfScenario` | src-tauri/src/lib.rs:214-229 | for that file, both tasks dial `192.168.1.192:25580` with `secret`; the refresh stores `true` on success and on a fast refusal, and `false` on timeout |

## Left out

- The refresh and shutdown tasks run under `tokio::spawn`, and `DashMap` makes the map safe for concurrent use. Neither is modelled. The query is modelled as a read followed by its refresh. In the code, the refresh may finish before the read. Racing tasks are covered only by upsert semantics: the last completed write wins (`Statuses.LastWriteWins`).
- The RCON connection (the `rcon` crate with Minecraft quirks) and the 800 ms `tokio::time::timeout` are network and timer code. They are reduced to the `ProbeOutcome` parameter. Authentication and the wire protocol are not modelled.
- Reading the properties file (`get_or_create_appdata_folder`, `fs::read_to_string`, `File::open`, `BufReader::lines`) is file-system code. The model takes the text or line items it yields as parameters, including a failed read or open. How `BufReader::lines` splits lines is not modelled separately; its items are the input.
- `get_server_version`, `create_new_data_folder`, `get_data_folder_list` and `open_folder` are directory I/O. `open_server` spawns a Windows process. `get_paper_versions` is an HTTP request plus JSON decoding. `run` is the Tauri registration. The user interface (`src/main.js`) is not part of this model.
- The `expect`s in `get_or_create_appdata_folder` (lib.rs:16 and 21) panic when the data folder cannot be found or created. Inside the refresh or shutdown task, such a panic ends the task with no write to the map. The model has no input for this; its only failure input is an unreadable properties file, on which the refresh writes `false`.
- `DescriptionOf` does not model a read error that keeps repeating. `Err(_) => continue` (lib.rs:74-77) asks the reader for the next line again, so a persistent I/O error makes `get_description_server` loop forever. The model's input is a finite sequence, and `Unreadable` stands for a line that fails once, such as one that is not valid UTF-8.
