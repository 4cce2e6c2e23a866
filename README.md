# droneserver core, modelled in Dafny

droneserver is an MCP server that exposes a MAVLink drone, driven through the MAVSDK Python SDK, as a set of
tools an AI agent can call. This project models the parts of it that have logic of their own, and proves
properties about them:

- **Connection settings** (`Connection`). At startup the server reads `MAVLINK_ADDRESS`, `MAVLINK_PORT` and
  `MAVLINK_PROTOCOL` from the environment.
  - A missing or empty address is a `ValueError`, raised before anything is dialled.
  - The port defaults to `14540`.
  - The protocol is lower-cased. Anything other than `tcp`, `udp` or `serial` falls back to `udp`.
  - The server dials `protocol://address:port`.
- **Offboard control** (`Offboard`). The connector object holds the drone and the last offboard setpoint,
  a `PositionNedYaw` that starts at zero.
  - `start_offboard_mode` sends the stored setpoint and then asks the drone to enter offboard mode.
  - `stop_offboard_mode` asks the drone to leave offboard mode, and sends no setpoint.
  - The requests the drone receives (setpoints, start, stop) are recorded in one log, in the order sent.
  - `move_to_relative` starts offboard mode. On success it shifts the stored setpoint in place (forward
    into north, right into east, up out of down, yaw into yaw) and sends it again.
- **IMU readout** (`Imu`). The `get_imu` tool collects IMU samples from the telemetry stream in arrival
  order. It stops after `n` samples, and never before the first one.
- **Mission upload** (`Mission`). The `initiate_mission` tool validates each mission point in order:
  - latitude first, then longitude, each inclusively in range;
  - then the three other required keys.

  Each point becomes a mission item; NaN or `NONE` fills every optional key the point leaves out. The first bad
  point raises an error before any request reaches the drone. Otherwise the tool sets return-to-launch,
  uploads the plan and starts the mission.
- **The logging rewrite** (`Patterns`, `ComprehensiveLogging`). `add_comprehensive_logging.py` works over
  the lines of the server module.
  - After every `@mcp.tool()` line whose next line matches the signature pattern, it inserts a
    `log_tool_call(...)` line before the first code line, unless that line already mentions `log_tool_call`.
    The first code line is the first line that is not blank, a comment or a line starting with `"""`. When the
    opening `"""` stands on a line of its own, that is the first line of docstring text.
  - On a line past the first that contains `await drone.action.`, and whose previous line does not mention
    `log_mavlink_command`, it inserts one `log_mavlink_command("drone.PLUGIN.NAME")` line. PLUGIN and NAME come
    from the leftmost `await drone.PLUGIN.NAME(` on the line whose `)` follows on the same line, whatever
    PLUGIN is. A second call on the same line gets no line of its own, and a call whose `)` is on a later line
    gets none at all.
  - The guard is parsed as `(A and B) if i > 0 else True`, so on the first line of the file any drone call
    that matches is logged.
  - The two regular expressions are modelled by hand-written matchers, with lemmas that state exactly
    which lines each accepts.
- **The replacement table** (`ReplaceLogging`). `add_logging.py` applies a table of (old, new) text pairs in
  order. Each pair replaces only the first occurrence of its old text, and a pair whose old text is absent
  is skipped.

`Text` models the Python string operations the scripts use: `strip`, `find`, `in`, `split`, `join`, `lower`,
and the `\w` character class. `Wrappers` holds `Option` and `Result`.

The server module contains no flight monitor or landing gate, so none is modelled.

## Model

| member | source | states |
|---|---|---|
| Connection.NormalizeProtocol | src/server/mavlinkmcp.py:44-61 | the protocol used is always tcp, udp or serial: the lower-cased setting when it is one of those, udp otherwise |
| Connection.LoadSettings | src/server/mavlinkmcp.py:42-61 | fails exactly when the address is missing or empty; on success the address is the one set, the port is the setting or 14540, and the protocol is the normalised setting or udp |
| Connection.DialTarget | src/server/mavlinkmcp.py:53-64 | the error is raised exactly when the address is missing or empty, before any connection string exists; otherwise the target is `protocol://address:port` built from the loaded settings |
| Connection.ToLowerIdempotent | src/server/mavlinkmcp.py:44 | lower-casing twice is lower-casing once |
| Connection.NormalizeProtocolIdempotent | src/server/mavlinkmcp.py:44-61 | normalising an already normalised protocol changes nothing |
| Connection.NormalizeProtocolIgnoresCase | src/server/mavlinkmcp.py:44 | the protocol setting is read regardless of letter case |
| Connection.KnownProtocolNoColon | src/server/mavlinkmcp.py:59 | none of the accepted protocols contains a `:` |
| Connection.ConnectionString | src/server/mavlinkmcp.py:64 | a protocol without `:` (every accepted one) is exactly the text before the first `:` of the connection string, whatever the address contains; after it come `://`, the address, `:` and the port |
| Connection.DefaultsExample | src/server/mavlinkmcp.py:42-64 | with only the address set, the server dials `udp://ADDRESS:14540` |
| Connection.ProtocolExamples | src/server/mavlinkmcp.py:44-61 | `TCP` becomes `tcp`, `Serial` becomes `serial`, `http` falls back to `udp` |
| Offboard.Moved | src/server/mavlinkmcp.py:215-218 | a move leaves the setpoint unchanged exactly when all four amounts are zero |
| Offboard.MovedCompose | src/server/mavlinkmcp.py:215-218 | two moves in a row shift the setpoint by their component-wise sum |
| Offboard.MovedReverse | src/server/mavlinkmcp.py:215-218 | a move followed by the opposite move returns the setpoint to where it was |
| Offboard.TrackTotal | src/server/mavlinkmcp.py:215-218 | successive moves add up: the final setpoint is the start moved once by the sum of all moves |
| Offboard.TrackAppend | src/server/mavlinkmcp.py:215-218 | a sequence of moves can be applied in two parts, the second starting from where the first ends |
| Offboard.PositionNedYaw.constructor | src/server/mavlinkmcp.py:31 | a new setpoint object holds the four given values |
| Offboard.OffboardPlugin.SetPositionNed | src/server/mavlinkmcp.py:160 | the setpoint's current value is appended to the drone's request log; whether offboard mode is active is unchanged |
| Offboard.OffboardPlugin.Start | src/server/mavlinkmcp.py:163-169 | the start request is appended to the request log, with no setpoint; succeeds exactly when the drone accepts, and offboard mode is active afterwards when it was before or the drone accepted |
| Offboard.OffboardPlugin.Stop | src/server/mavlinkmcp.py:184-190 | the stop request is appended to the request log, with no setpoint; succeeds exactly when the drone accepts, and offboard mode is active afterwards only when it was before and the drone refused |
| Offboard.MAVLinkConnector.constructor | src/server/mavlinkmcp.py:28-31 | a new connector's setpoint is (0, 0, 0, 0), held in a fresh object of its own |
| Offboard.StartOffboardMode | src/server/mavlinkmcp.py:148-169 | the drone receives exactly the stored setpoint and then the start request, in that order, whatever the outcome; the result is whether the drone entered offboard mode; the stored setpoint is unchanged |
| Offboard.StopOffboardMode | src/server/mavlinkmcp.py:171-190 | the drone receives exactly the stop request, and no setpoint; the result is whether the drone left offboard mode; the stored setpoint is unchanged |
| Offboard.MoveToRelative | src/server/mavlinkmcp.py:192-224 | the drone receives the old setpoint and the start request; a refused start returns false with nothing more sent and the stored setpoint unchanged; on success north += fb, east += lr, down += -altitude, yaw += yaw, and the moved setpoint is sent as the third request |
| Imu.ToRecord | src/server/mavlinkmcp.py:290-308 | a record keeps every field of its sample, with forward/right/down as x/y/z, so the sample can be read back from it |
| Imu.ToRecordInjective | src/server/mavlinkmcp.py:290-308 | distinct samples give distinct records |
| Imu.Wanted | src/server/mavlinkmcp.py:287-311 | the number of samples taken is at least one and at least n, and exactly n when n is positive |
| Imu.GetImu | src/server/mavlinkmcp.py:270-313 | returns one record per sample in stream order, for the first max(n, 1) samples, or for all of them when the stream ends sooner |
| Mission.ValidatePoint | src/server/mavlinkmcp.py:364-389 | a point is accepted exactly when its five required keys are present and both coordinates are in range (NaN and infinities never are); the first failing check decides the error, in the order latitude present, latitude in range, longitude present, longitude in range, altitude, speed, fly-through |
| Mission.ValidatePointOfItem | src/server/mavlinkmcp.py:372-387 | an item with in-range coordinates is rebuilt exactly from the point that spells out all its fields |
| Mission.ValidatePointItem | src/server/mavlinkmcp.py:372-387 | the item built from an accepted point carries every key the point gives, and NaN or `NONE` for every optional key it omits |
| Mission.BuildItems | src/server/mavlinkmcp.py:363-389 | a successful build has exactly one item per point; a failure needs at least one point |
| Mission.BuildItemsSuccess | src/server/mavlinkmcp.py:363-387 | when every point is good there is one item per point, in order, each built from its own point |
| Mission.BuildItemsAllAcceptable | src/server/mavlinkmcp.py:363-389 | items are produced only when every point is good |
| Mission.BuildItemsFirstError | src/server/mavlinkmcp.py:364-389 | the first bad point decides the error, whatever follows it |
| Mission.BuildItemsFailurePrefix | src/server/mavlinkmcp.py:364-389 | once a prefix of the points fails, the whole list fails with the same error |
| Mission.MissionPlugin.Request | src/server/mavlinkmcp.py:394-400 | each request reaches the drone after the earlier ones |
| Mission.BuildMissionItems | src/server/mavlinkmcp.py:363-389 | the tool's loop computes exactly the item list, or the first point's error |
| Mission.InitiateMission | src/server/mavlinkmcp.py:360-402 | on a bad point, returns its error and sends the drone nothing; otherwise sends return-to-launch, the upload of the items in order, and the start, in that order, and returns true |
| Patterns.LastReturnsDict | add_comprehensive_logging.py:27 | finds the last `) -> dict:` within the given bounds, or reports that none occurs there |
| Patterns.NewlineLimit | add_comprehensive_logging.py:27 | `(.+)` may extend up to the first newline and no further |
| Patterns.HeadName | add_comprehensive_logging.py:27 | a head match is a non-empty run of `\w` characters, with the line starting `async def NAME(ctx: Context` |
| Patterns.MatchTail | add_comprehensive_logging.py:27 | a matched parameter group has no newline, and the tail starts with `) -> dict:` (no group) or `, PARAMS) -> dict:` |
| Patterns.MatchSignature | add_comprehensive_logging.py:27 | a match has a non-empty `\w+` name and one-line parameters, and the line starts with `async def NAME(ctx: Context` |
| Patterns.MatchSignatureSound | add_comprehensive_logging.py:27-30 | a match has a `\w+` name and one-line parameters, and the line starts with its signature text |
| Patterns.MatchSignatureParts | add_comprehensive_logging.py:27-30 | a match's name, head and tail are found where the pattern places them |
| Patterns.SignatureTextOfParts | add_comprehensive_logging.py:27 | the head and tail of a signature together make up its signature text |
| Patterns.MatchTailComplete | add_comprehensive_logging.py:27 | a tail that starts with the group and `) -> dict:` matches, and the greedy group extends the given parameters |
| Patterns.HeadNameOf | add_comprehensive_logging.py:27 | a line starting `async def NAME(ctx: Context` with a word NAME has exactly that name |
| Patterns.MatchSignatureComplete | add_comprehensive_logging.py:27-30 | every line starting with the signature text of a word name matches, with that name and with parameters extending the given ones |
| Patterns.SignatureParts | add_comprehensive_logging.py:27 | a line starting with a signature text has that name at the pattern's position, followed by the tail text |
| Patterns.MatchTailNoParams | add_comprehensive_logging.py:27-30 | a tail starting with `) -> dict:` matches with the optional group absent (params "") |
| Patterns.MatchSignatureOf | add_comprehensive_logging.py:27-30 | the match is determined by the name length and the tail match |
| Patterns.MatchSignatureNoParams | add_comprehensive_logging.py:27-30 | a signature with nothing after `ctx: Context` matches with an empty parameter group |
| Patterns.NameFromSound | add_comprehensive_logging.py:76 | a matched command name is a word at the position tried, followed by `(` |
| Patterns.CommandFromSound | add_comprehensive_logging.py:76-79 | a matched plugin and command are words, found as `PLUGIN.COMMAND(` |
| Patterns.CommandFromParts | add_comprehensive_logging.py:76-79 | the plugin word, the `.` after it, and the command name, each where the pattern places them |
| Patterns.DottedCall | add_comprehensive_logging.py:76 | `PLUGIN`, `.` and `NAME(` back to back form `PLUGIN.NAME(` |
| Patterns.CommandAtSound | add_comprehensive_logging.py:76-79 | a match at an index names two words, and the line holds `await drone.PLUGIN.COMMAND(` there |
| Patterns.CommandTextParts | add_comprehensive_logging.py:76 | the pieces of a command text, each at its own index |
| Patterns.NameFromOfWord | add_comprehensive_logging.py:76 | a word followed by a call that closes on the line is matched as the command name |
| Patterns.CommandFromOfWord | add_comprehensive_logging.py:76 | a plugin word, `.`, and a command word whose call closes on the line are matched as plugin and command |
| Patterns.ClosesAfter | add_comprehensive_logging.py:76 | one-line arguments followed by `)` satisfy the lazy `(.*?)\)` |
| Patterns.CommandAtOfText | add_comprehensive_logging.py:76-79 | command text with word names, closed on its line, matches with exactly those names |
| Patterns.CommandAtComplete | add_comprehensive_logging.py:76-79 | `await drone.P.C(ARGS)` with word names and one-line arguments matches with exactly P and C |
| Patterns.FirstCommandIndex | add_comprehensive_logging.py:76 | the search finds the leftmost index where the pattern matches, or reports that none does |
| Patterns.SearchCommand | add_comprehensive_logging.py:76 | the search fails exactly when the pattern matches at no index of the line; a match names a `\w+` plugin and a `\w+` command |
| Patterns.WordRunIsWord | add_comprehensive_logging.py:76 | what a greedy `\w+` consumes, when anything, is a word |
| ComprehensiveLogging.IsToolDecorator | add_comprehensive_logging.py:21 | a log line is never taken for a tool decorator, so an inserted line never starts another tool |
| ComprehensiveLogging.Skippable | add_comprehensive_logging.py:38 | a log line is never skipped, so the scan stops at a tool-call line inserted earlier |
| ComprehensiveLogging.FirstCodeLine | add_comprehensive_logging.py:33-41 | the scan stops inside the lines, at a line that is not skippable, or at the end |
| ComprehensiveLogging.FirstCodeLineSkips | add_comprehensive_logging.py:34-40 | every line the scan steps over is blank, a comment, or starts with `"""` |
| ComprehensiveLogging.ParamName | add_comprehensive_logging.py:51-56 | a parameter name never carries the `:` of its annotation or the `=` of its default |
| ComprehensiveLogging.ParamNameOfWord | add_comprehensive_logging.py:51-56 | a parameter written `name`, `name: type` or `name: type = default` is named `name` |
| ComprehensiveLogging.CutParamOfWord | add_comprehensive_logging.py:53-56 | both branches (with and without `=`) cut a word-led parameter down to the word |
| ComprehensiveLogging.CutDefaultOfWord | add_comprehensive_logging.py:54 | cutting at `=`, stripping and cutting at `:` leaves the word |
| ComprehensiveLogging.StripWordThen | add_comprehensive_logging.py:52 | stripping an indented word-led text keeps the word and what follows |
| ComprehensiveLogging.BeforeCharWordThen | add_comprehensive_logging.py:54 | cutting a word-led text at a character the word lacks keeps the word |
| ComprehensiveLogging.BeforeCharAtWord | add_comprehensive_logging.py:54-56 | cutting at the character after the word leaves the word |
| ComprehensiveLogging.StripWord | add_comprehensive_logging.py:54-56 | a word has nothing to strip |
| ComprehensiveLogging.ParamNames | add_comprehensive_logging.py:51-58 | at most one name per comma-separated piece, and no name passed on is `ctx` or contains `:` or `=` |
| ComprehensiveLogging.Entries | add_comprehensive_logging.py:58 | one `name=name` argument per name |
| ComprehensiveLogging.ParamList | add_comprehensive_logging.py:49-58 | an absent parameter group gives no arguments; otherwise at most one argument per comma-separated piece |
| ComprehensiveLogging.ParamListOfPieces | add_comprehensive_logging.py:50-58 | a parameter group of comma-free pieces joined by commas yields the `name=name` arguments of the pieces' names, in order |
| ComprehensiveLogging.EntriesSnoc | add_comprehensive_logging.py:58 | one more name adds its `name=name` argument at the end |
| ComprehensiveLogging.ParamNamesStep | add_comprehensive_logging.py:51-58 | one more piece adds its name at the end, unless the name is `ctx` |
| ComprehensiveLogging.BuildParamList | add_comprehensive_logging.py:49-58 | the loop builds exactly the `name=name` list of the non-`ctx` names, in order, and nothing when the group is absent |
| ComprehensiveLogging.AddParam | add_comprehensive_logging.py:51-58 | one turn of that loop adds the piece's entry unless its name is `ctx` |
| ComprehensiveLogging.IndentedLogLine | add_comprehensive_logging.py:83-87 | an indented helper call is a log line with exactly that indentation |
| ComprehensiveLogging.ToolCallLine | add_comprehensive_logging.py:61-64 | a tool-call line is a log line with the indentation it was built with, ending with a newline |
| ComprehensiveLogging.CommandLine | add_comprehensive_logging.py:87 | a command log line is a log line with the indentation it was built with, ending with a newline |
| ComprehensiveLogging.ToolInsertion | add_comprehensive_logging.py:21-70 | a line is inserted only after a decorator followed by a matching signature; it is then `log_tool_call("NAME", p=p, ...)` with the matched name and parameter list, indented like the first code line after the signature and placed right before it, with the message `Added log_tool_call to NAME`; nothing is inserted exactly when no code line follows or that line already mentions `log_tool_call` |
| ComprehensiveLogging.MavlinkGuard | add_comprehensive_logging.py:74 | on the first line the guard holds whatever the line holds |
| ComprehensiveLogging.CommandInsertion | add_comprehensive_logging.py:74-91 | a line is inserted only where the guard holds and the leftmost command match exists; it is then `log_mavlink_command("drone.PLUGIN.NAME")` for that match, indented like the line and placed right before it, with the message `Added log for drone.PLUGIN.NAME`; past the first line, it is inserted exactly when the line contains `await drone.action.`, the previous line does not mention `log_mavlink_command`, and the pattern matches |
| ComprehensiveLogging.FindToolInsertion | add_comprehensive_logging.py:21-71 | the tool branch with its inner scan computes exactly the tool-call insertion |
| ComprehensiveLogging.Insert | add_comprehensive_logging.py:90 | an insertion adds exactly one line |
| ComprehensiveLogging.InsertKept | add_comprehensive_logging.py:90 | inserting a line leaves the original lines as they were, in order |
| ComprehensiveLogging.InsertCounts | add_comprehensive_logging.py:90-91 | an insertion adds one new line and no original one |
| ComprehensiveLogging.InsertKeepsWellFormed | add_comprehensive_logging.py:83-90 | inserting a log line indented like its successor keeps every inserted line a log line indented like its successor |
| ComprehensiveLogging.InsertedAt | add_comprehensive_logging.py:83-90 | after the insertion, each inserted line is a log line indented like the line after it |
| ComprehensiveLogging.OriginalsFrom | add_comprehensive_logging.py:94 | the number of original lines from an index drops by one when that index holds one |
| ComprehensiveLogging.InsertStep | add_comprehensive_logging.py:67-68 | an insertion keeps every invariant of the pass |
| ComprehensiveLogging.InsertMarks | add_comprehensive_logging.py:90-92 | an insertion adds no original line from before its position on, and shifts the rest by one |
| ComprehensiveLogging.ToolStep | add_comprehensive_logging.py:21-70 | the tool branch keeps the invariants of the pass, and leaves the decorator's line and every original line after it in place |
| ComprehensiveLogging.DecoratorIsOriginal | add_comprehensive_logging.py:21 | a tool decorator is always an original line |
| ComprehensiveLogging.ToolStage | add_comprehensive_logging.py:20-71 | the tool branch inserts exactly the tool-call line, with one change message per inserted line, and keeps the invariants |
| ComprehensiveLogging.CommandStage | add_comprehensive_logging.py:73-94 | the command branch inserts exactly the command line, skips past it, and moves on to the next original line |
| ComprehensiveLogging.AddComprehensiveLogging | add_comprehensive_logging.py:16-94 | the pass ends; every original line survives, in order; every inserted line is a log line indented like the line after it; there is exactly one change message per inserted line |
| ComprehensiveLogging.KeptAllOriginal | add_comprehensive_logging.py:10-13 | at the start every line is original and nothing is new |
| ComprehensiveLogging.FirstLineAnyCommandLogged | add_comprehensive_logging.py:74 | because of how the guard parses, at index 0 a call of any drone plugin gets a command log line, not only `drone.action` |
| ComprehensiveLogging.CommandLineFound | add_comprehensive_logging.py:76-83 | a line holding a drone call is found with its plugin and name, and has no indentation |
| ComprehensiveLogging.DocstringListingHead | add_comprehensive_logging.py:21-28 | a decorator followed by a signature with no parameters matches, with that name |
| ComprehensiveLogging.DecoratorLine | add_comprehensive_logging.py:21 | the decorator on a line of its own is recognised |
| ComprehensiveLogging.DocstringListingOpening | add_comprehensive_logging.py:38 | a line holding only the opening `"""` is skipped |
| ComprehensiveLogging.DocstringListingText | add_comprehensive_logging.py:38-45 | a docstring text line is not skipped, and its indentation is kept |
| ComprehensiveLogging.IndentedCodeLine | add_comprehensive_logging.py:38-45 | an indented text that opens neither a docstring nor a comment is code, with that indentation |
| ComprehensiveLogging.CodeWhenStripped | add_comprehensive_logging.py:35-38 | a line that strips to non-empty text opening neither `"` nor `#` is code |
| ComprehensiveLogging.DocstringBodyTakenForCode | add_comprehensive_logging.py:33-67 | when the opening `"""` stands on its own line, the first docstring text line counts as code, and the tool-call line is inserted there, inside the docstring |
| ReplaceLogging.ReplaceFirst | add_logging.py:43-44 | an absent old text leaves the content unchanged; otherwise the content becomes the text before the FIRST occurrence, then the new text, then everything after that occurrence |
| ReplaceLogging.ReplaceFirstAt | add_logging.py:44 | the first occurrence is the one replaced, with the rest untouched |
| ReplaceLogging.UndoReplaceFirst | add_logging.py:44 | when the new text first appears where it was put, swapping it back for the old text restores the content |
| ReplaceLogging.ReplacedParts | add_logging.py:44 | a replacement that applies is the text before, the new text, and the text after |
| ReplaceLogging.Parts | add_logging.py:44 | a text holding an occurrence is the part before it, the occurrence, and the part after it |
| ReplaceLogging.ReplaceKeepsOld | add_logging.py:43-44 | a pair whose new text contains its old text leaves the old text present, so running the script again applies it again |
| ReplaceLogging.GetPositionPairReapplies | add_logging.py:29-30 | the `get_position` pair puts its log line in front of its old text, so the old text survives and a second run of the script inserts the line again |
| ReplaceLogging.ReplaceFirstKeepsLater | add_logging.py:44 | later occurrences of the old text survive, shifted by the length change |
| ReplaceLogging.Found | add_logging.py:43 | one outcome per pair |
| ReplaceLogging.ApplyAll | add_logging.py:41-44 | a table whose new texts are never shorter than their old texts never shortens the content |
| ReplaceLogging.ApplyAllConcat | add_logging.py:41-44 | pairs apply in table order, each to the content the earlier ones left |
| ReplaceLogging.ApplyAllLength | add_logging.py:41-44 | the content's length changes by exactly the sum of `len(new) - len(old)` over the pairs that applied |
| ReplaceLogging.ApplyAllNoneFound | add_logging.py:41-47 | a table whose old texts are all absent leaves the content unchanged and applies nothing |
| ReplaceLogging.ApplyOneMore | add_logging.py:42-44 | one more pair applies to the content the earlier pairs left, and records whether it was found |
| ReplaceLogging.ApplyPair | add_logging.py:43-47 | a pair replaces when its old text is present, and reports whether it did; otherwise the content is unchanged |
| ReplaceLogging.ApplyToolLogging | add_logging.py:41-47 | the nested loops compute the table applied in order, record whether each pair was found, and change the length by exactly the applied pairs' deltas |
| ReplaceLogging.ApplyEntry | add_logging.py:42-47 | one tool's pairs apply in order to the content left by the pairs before them |
| Text.LeadingWs | add_comprehensive_logging.py:45 | the indentation is the run of whitespace that starts the line |
| Text.Strip | add_comprehensive_logging.py:35 | the stripped text is the middle of the line, with whitespace before it and after it and none at its ends |
| Text.StripIndented | add_comprehensive_logging.py:35-45 | an indented text with its line terminator strips to the text, and its indentation is the number of blanks |
| Text.IndexFrom | add_logging.py:43-44 | the first occurrence at or after an index, or -1 when there is none |
| Text.BeforeChar | add_comprehensive_logging.py:54-56 | `split(c)[0]` is a prefix without `c`, ending just before the first `c` |
| Text.Split | add_comprehensive_logging.py:51 | at least one piece, none containing the separator |
| Text.JoinSplit | add_comprehensive_logging.py:51 | joining the pieces with the separator gives back the text |
| Text.SplitJoin | add_comprehensive_logging.py:51 | joining comma-free pieces with commas and splitting again gives back the pieces |
| Text.LowerChar | src/server/mavlinkmcp.py:44 | an ASCII capital becomes its small letter, 32 code points higher; every other character is kept |
| Text.ToLower | src/server/mavlinkmcp.py:44 | lower-casing keeps the length, lower-cases every character separately, and leaves no ASCII capital |
| Text.WordRunSpan | add_comprehensive_logging.py:27 | a greedy `\w+` consumes word characters and stops at the first character that is not one |
| Text.WordRunAt | add_comprehensive_logging.py:27 | a word followed by a non-word character is exactly what `\w+` consumes |

## Left out

- The MAVSDK calls themselves (`connect`, `set_position_ned`, `offboard.start`/`stop`, `set_rate_imu`,
  the telemetry stream and the mission plugin) are outside the model. Each is an input (the drone's
  acceptance, the stream as a finite sequence) or a recorded request.
- Exceptions raised by `set_position_ned` and the mission requests are not modelled. The model lets them
  succeed.
- The connection wait and the GPS-lock wait after `connect` (`src/server/mavlinkmcp.py:71-90`) are not
  modelled. They only wait on SDK streams and log.
- Logging, `.env` loading and the startup banner are not modelled. They have no effect on results.
- The other tools of the server module (arm, takeoff, land, position, status text, flight mode, parameters
  and so on) are not modelled. Each is a single SDK call wrapped in logging.
- `src/server/mavlinkmcp_http.py` is not part of this model. It is a launcher.
- The tests are not part of this model.
- File reading and writing and the printed summaries of `add_comprehensive_logging.py` and `add_logging.py`
  are not modelled. The passes take and return the text.
- Imu.GetImu: the `set_rate_imu(200.0)` request made before reading is not modelled. An endless stream is
  modelled by a finite sequence at least as long as what is taken.
- Imu.GetImu: the default `n = 1` of the tool's signature is not modelled. Callers pass `n` explicitly.
- Mission.InitiateMission: the default `return_to_launch = True` of the tool's signature is not modelled.
  Callers pass it explicitly.
- Offboard.MoveToRelative: the setpoint components are reals, and floating-point rounding in `+=` is not
  modelled.
- Imu.GetImu: IMU values are reals, not IEEE floats.
- Mission.ValidatePoint: non-numeric coordinate values, which raise `TypeError` in the source, are not
  modelled. Error messages are reduced to their kind and the offending value or key.
- Text.ToLower: lower-cases ASCII letters only and keeps the length. Python's `str.lower` also lower-cases
  other letters, and can change the length (`'İ'.lower()` has two characters).
- Connection.NormalizeProtocol: lower-cases ASCII letters only. Python's `str.lower` also lower-cases other
  letters. The accepted protocols are ASCII, so which protocol is chosen is unaffected.
- Patterns.MatchSignature: `\w` is modelled as ASCII letters, digits and `_`. Python also accepts non-ASCII
  letters and digits in `str` patterns.
- Patterns.SearchCommand: `\w` is ASCII, as above.
- Patterns.MatchSignatureComplete: states that the matched parameters extend the given ones, not which
  `) -> dict:` the greedy group stops at when several occur on the line. The exact stopping point is given
  by `Patterns.MatchTail` and `Patterns.LastReturnsDict`.
- ComprehensiveLogging.AddComprehensiveLogging: its contract states the invariants of the whole pass, not
  the exact list of insertions. The insertions are stated step by step by `ToolStage` and `CommandStage`.
