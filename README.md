# ergo-miningcore monitoring and dashboard, modelled in Dafny

This project models the monitoring side of an Ergo mining pool deployment:

- **The alert monitor** (`integrations/alert_monitor.py`). Once a minute it checks four things: pool reachability, disk space, CPU and memory load, and node peers. It keeps one flag per condition in `last_alerts`. An alert goes out only on a flag's false-to-true edge. Clearing a flag is silent, except for the pool, whose recovery is announced.
- **The two notification channels**:
  - a Telegram bot (`integrations/telegram_bot.py`), which fans each message out to every configured chat;
  - a Discord webhook (`integrations/discord_webhook.py`), which posts one embed.
  Each channel gates on its enabled flag, its credentials and a per-kind allow-list.
- **The dashboard's HTTP handler** (`dashboard/server.py`):
  - routing of `GET` requests: four monitoring endpoints, a proxy to the pool API, and static files;
  - the CORS and cache headers every response carries;
  - the status mapping of the proxy;
  - the `psql` table-listing parser;
  - the defaults of the disk components.
- **The admin page's decisions** (`dashboard/assets/js/admin.js`):
  - the password gate and its one-hour session;
  - the pool, node and API status labels;
  - the disk bar's colour class;
  - the alert list.
- **The public dashboard's formatting and histories** (`dashboard/assets/js/dashboard.js`):
  - address truncation;
  - "time ago" buckets;
  - hashrate unit and difficulty suffix selection;
  - the effort gauge;
  - the sparkline buffers (50 values) and the chart window (24 points), pushed and shifted in place.

Modules and files:

| file | module | models |
|---|---|---|
| `wrappers.dfy` | `Wrappers` | `Option`, used for absent JSON keys |
| `text.dfy` | `Text` | the Python string operations the code uses (`split`, `strip`, `title`, `upper`, `replace`), and number rendering |
| `config.dfy` | `Config` | the parsed `config/integrations.json` and the outcome of a POST |
| `telegram_bot.dfy` | `Telegram` | `TelegramBot` |
| `discord_webhook.dfy` | `Discord` | `DiscordWebhook` |
| `alert_rules.dfy` | `AlertRules` | the de-duplication rules as pure step functions, and what they guarantee |
| `alert_monitor.dfy` | `Monitor` | `AlertMonitor`, a class proved to follow `AlertRules` |
| `server.dfy` | `Server` | `DashboardHandler` and its parsing helpers |
| `admin.dfy` | `Admin` | `admin.js` |
| `dashboard.dfy` | `Dashboard` | `dashboard.js` |

Modelling choices:

- **Percentages** are integers in tenths of a percent. The system endpoints round them to one decimal, and every threshold (80, 90) is whole, so the comparisons are exact.
- **JavaScript numbers** in the hashrate and difficulty formatting are `real`s.
- **HTTP requests, subprocesses, the clock and the file system** are replaced by their outcomes, given as inputs:
  - a status code or an exception tag for each request;
  - the exit code and output of each subprocess;
  - whether each directory exists;
  - `now` as a parameter.
- **The monitor's ghost state.** `AlertMonitor` keeps three ghost records:
  - `log`: every alert handed to `send_alert`;
  - `history`: every reading judged;
  - `outbox`: every message that left the process.
  Its invariant `Valid()` says that the flags and the log are exactly what `AlertRules.Run` gives for the history, starting from no flag set, and that every message went to a channel that was ready and allowed it.
- **Disk flags are not exclusive.** The disk check's 90% branch never touches the warning flag. So a warning followed by a critical reading leaves both flags set (`AlertRules.DiskFlagsNotExclusive`), and the model follows the code there. A reading of 75, 85, 85, 95, 70 therefore sends two alerts, not three (`AlertRules.DiskScenario`).

## Model

| member | source | states |
|---|---|---|
| `AlertRules.Raise` | integrations/alert_monitor.py:56-62 | raising a condition sends its alert exactly when the flag was not set, leaves the flag set, and touches no other entry |
| `AlertRules.Clear` | integrations/alert_monitor.py:76-77 | clearing leaves the flag unset and touches no other entry |
| `AlertRules.CheckDisk` | integrations/alert_monitor.py:47-80 | at most one alert; only the two disk entries change; a failed request changes nothing and sends nothing |
| `AlertRules.MissingUsageClears` | integrations/alert_monitor.py:53 | a reply without `usagePercent` counts as 0 and clears both disk flags |
| `AlertRules.DiskFlagsNotExclusive` | integrations/alert_monitor.py:56-72 | 85% then 95% leaves the warning and the critical flag both set |
| `AlertRules.CriticalResentAfterWarning` | integrations/alert_monitor.py:64-72 | 95%, 85%, 95% sends critical, warning, critical: the warning band clears the critical flag |
| `AlertRules.DiskScenario` | integrations/alert_monitor.py:47-80 | 75, 85, 85, 95, 70 sends exactly the warning at 85 and the critical alert at 95 |
| `AlertRules.PoolFailure` | integrations/alert_monitor.py:86-89 | a non-200 status or a request exception is a failure with an offline alert; status 200 is not |
| `AlertRules.CheckPool` | integrations/alert_monitor.py:82-102 | at most one alert, and only the pool entry changes |
| `AlertRules.PoolScenario` | integrations/alert_monitor.py:82-102 | ok, fail, fail, ok sends one offline alert and one recovery notice |
| `AlertRules.RecoveryMessageDistinct` | integrations/alert_monitor.py:95-96 | the recovery notice has the pool's kind but a text no offline alert can have |
| `AlertRules.CheckCpu` | integrations/alert_monitor.py:112-119 | at most one alert, and only the CPU entry changes |
| `AlertRules.CheckMemory` | integrations/alert_monitor.py:122-132 | at most one alert; only the memory entry changes; an absent, `'N/A'` or empty memory reading changes nothing |
| `AlertRules.CheckPerformance` | integrations/alert_monitor.py:104-135 | at most two alerts; only the CPU and memory entries change; a failed request changes nothing |
| `AlertRules.CheckNode` | integrations/alert_monitor.py:137-156 | at most one alert; only the node entry changes; a failed request, a non-200 status or an empty pool list changes nothing |
| `AlertRules.Check` | integrations/alert_monitor.py:186-195 | every check changes only the entries of its own conditions |
| `AlertRules.Run` | integrations/alert_monitor.py:186-195 | the checks of a sequence of readings, one after the other, send at most two alerts per reading |
| `AlertRules.RunCons` | integrations/alert_monitor.py:186-195 | a run starts with the check of its first reading and continues from the flags it left |
| `AlertRules.RunOfFourSteps` | integrations/alert_monitor.py:192-195 | a run of four readings is the four checks chained, its alerts those of the four in order |
| `AlertRules.RunAppend` | integrations/alert_monitor.py:186-195 | a run split in two: the second part starts from the flags the first left, and the alerts follow each other |
| `AlertRules.RunSnoc` | integrations/alert_monitor.py:186-195 | a run extended by one check |
| `AlertRules.FiringsAppend` | integrations/alert_monitor.py:35-45 | alert and recovery counts add up over concatenated alert sequences |
| `AlertRules.EdgeCompose` | integrations/alert_monitor.py:104-135 | two updates of which one leaves a flag alone rise where their composition rises |
| `AlertRules.RaiseEdges` | integrations/alert_monitor.py:56-62 | raising announces exactly the rising edge of its flag |
| `AlertRules.ClearEdges` | integrations/alert_monitor.py:74-77 | a silent clear announces nothing, since no alert fires and no recovery is sent |
| `AlertRules.DiskEdges` | integrations/alert_monitor.py:47-80 | the disk check sends an alert for a condition exactly when its flag goes up, and no recovery |
| `AlertRules.PoolEdges` | integrations/alert_monitor.py:82-102 | the pool check sends its offline alert exactly on the flag's rise, and the recovery exactly on its fall |
| `AlertRules.MemoryEdges` | integrations/alert_monitor.py:122-132 | the memory half announces exactly its flag's rise |
| `AlertRules.PerformanceEdges` | integrations/alert_monitor.py:104-135 | the CPU and memory halves together announce exactly the rises of their flags |
| `AlertRules.NodeEdges` | integrations/alert_monitor.py:137-156 | the node check announces exactly its flag's rise |
| `AlertRules.CheckEdges` | integrations/alert_monitor.py:47-156 | every check is edge-triggered: alerts for a condition are its rises, and recovery notices are the pool flag's falls |
| `AlertRules.RunEdges` | integrations/alert_monitor.py:186-195 | along any run, the alerts for a condition are exactly its rises and the recovery notices exactly the pool's falls, so a condition that stays set is never announced twice |
| `AlertRules.ClearUnset` | integrations/alert_monitor.py:72-77 | clearing a flag that is present and unset changes nothing |
| `AlertRules.CheckSettles` | integrations/alert_monitor.py:47-156 | flags that agree with a check's outcome on its own conditions are left alone by the same reading, and nothing is sent |
| `AlertRules.CheckIdempotent` | integrations/alert_monitor.py:47-156 | the same reading twice sends nothing and changes nothing the second time |
| `AlertRules.RepeatedReading` | integrations/alert_monitor.py:186-195 | any number of identical readings sends what the first one sends |
| `AlertRules.RunSilent` | integrations/alert_monitor.py:186-195 | a run of checks each of which leaves the flags alone sends nothing |
| `AlertRules.RunOfFour` | integrations/alert_monitor.py:192-195 | the flags after a run of four checks are those of the four checks composed |
| `AlertRules.SettledFour` | integrations/alert_monitor.py:192-195 | four checks over disjoint conditions, repeated, send nothing and change nothing |
| `AlertRules.TickIdempotent` | integrations/alert_monitor.py:192-195 | repeating a whole loop iteration with the same replies sends nothing and changes nothing |
| `AlertRules.ReplayPoolAppend` | integrations/alert_monitor.py:82-102 | replaying the pool alerts of two sequences is replaying one after the other |
| `AlertRules.PoolAlertsAlternate` | integrations/alert_monitor.py:82-102 | along any run, offline alerts and recovery notices strictly alternate, from the initial pool flag to the final one |
| `Monitor.AllReadings` | integrations/alert_monitor.py:186-195 | each loop iteration contributes four readings |
| `Monitor.AllReadingsBlocks` | integrations/alert_monitor.py:186-195 | iteration `i` contributes the readings at positions `4i` to `4i+3`: pool, disk, performance, node |
| `Monitor.AlertMonitor.constructor` | integrations/alert_monitor.py:23-28 | both channels are built from the same file, no flag is set, and the invariant holds |
| `Monitor.AlertMonitor.AlertDeliveries` | integrations/alert_monitor.py:39-43 | an alert reaches at most the two channels, each only when it is ready and allow-lists the kind |
| `Monitor.AlertMonitor.Routes` | integrations/alert_monitor.py:35-45 | each alert produces at most two messages |
| `Monitor.AlertMonitor.RoutesAppend` | integrations/alert_monitor.py:35-45 | the messages of alerts sent one after the other are the messages of each part, in order |
| `Monitor.AlertMonitor.RunAppendRoutes` | integrations/alert_monitor.py:186-195 | a run split in two posts the first part's messages, then the second part's, which starts from the flags the first left |
| `Monitor.AlertMonitor.SendAlert` | integrations/alert_monitor.py:35-45 | the result is true exactly when a channel that allow-lists the kind delivered it (false when none is enabled); what was sent is recorded; the flags are untouched |
| `Monitor.AlertMonitor.Notify` | integrations/alert_monitor.py:58-61 | an alert is sent and logged, and the flags are untouched |
| `Monitor.AlertMonitor.Fire` | integrations/alert_monitor.py:57-62 | sending on the edge, then setting the flag, is `Raise`, whatever the delivery result |
| `Monitor.AlertMonitor.CheckPoolStatus` | integrations/alert_monitor.py:82-102 | the flags, the log and the messages follow `CheckPool`, and the invariant is kept |
| `Monitor.AlertMonitor.CheckDiskSpace` | integrations/alert_monitor.py:47-80 | the flags, the log and the messages follow `CheckDisk`, and the invariant is kept |
| `Monitor.AlertMonitor.CheckSystemPerformance` | integrations/alert_monitor.py:104-135 | the flags and the log follow `CheckPerformance`; the messages posted are those routed for its alerts, CPU before memory; the invariant is kept |
| `Monitor.AlertMonitor.CheckUsage` | integrations/alert_monitor.py:111-132 | the CPU half, then the memory half on the flags the first left; log and messages are the CPU alerts' then the memory alerts' |
| `Monitor.AlertMonitor.CheckCpuUsage` | integrations/alert_monitor.py:112-119 | the flags, the log and the messages follow `CheckCpu` |
| `Monitor.AlertMonitor.CheckMemoryUsage` | integrations/alert_monitor.py:122-132 | the flags, the log and the messages follow `CheckMemory` |
| `Monitor.AlertMonitor.CheckNodeConnection` | integrations/alert_monitor.py:137-156 | the flags, the log and the messages follow `CheckNode`, and the invariant is kept |
| `Monitor.AlertMonitor.Tick` | integrations/alert_monitor.py:192-195 | one iteration runs the pool, disk, performance and node checks in that order: the flags and the log are the run of those four readings, and the messages posted are exactly those routed for that run's alerts |
| `Monitor.AlertMonitor.FourChecks` | integrations/alert_monitor.py:192-195 | four checks logged and posted one after the other log and post what a run over the four readings sends |
| `Monitor.AlertMonitor.Loop` | integrations/alert_monitor.py:186-200 | after any number of iterations the flags and log are the run of all their readings, and the messages posted are exactly those routed for that run's alerts, in order |
| `Monitor.AlertMonitor.Announcements` | integrations/alert_monitor.py:177-184 | the start and stop messages go to every ready channel, bypassing the allow-lists |
| `Monitor.AlertMonitor.Announce` | integrations/alert_monitor.py:175-184 | announcing touches neither the flags nor the log |
| `Monitor.AlertMonitor.RunMonitor` | integrations/alert_monitor.py:158-217 | the start announcement, then exactly the messages routed for the alerts the rules give for all readings, then the stop announcement; the log is that run's alerts |
| `Telegram.Emoji` | integrations/telegram_bot.py:74-86 | a kind's emoji comes from the fixed table, and every other kind gets the warning sign |
| `Telegram.AlertText` | integrations/telegram_bot.py:88-95 | the alert text is the emoji, the heading and the details at fixed places, with a length fixed by theirs and the time's |
| `Telegram.NewBlockText` | integrations/telegram_bot.py:118-127 | the block text opens with the new-block line and the height (`N/A` when absent), ends with the time, and its length is fixed by the four fields (reward `0`, effort `0`, miner `Unknown` when absent) and the time |
| `Telegram.AlertHeading` | integrations/telegram_bot.py:90 | the heading has the kind's length and no `_`; each character is the kind's character, with `_` read as a space, title-cased: upper-cased when it starts a run of letters, lower-cased inside one, and left alone when not a letter |
| `Telegram.TitleHasNoUnderscore` | integrations/telegram_bot.py:90 | title-casing a text without `_` creates none |
| `Telegram.TitleOfLetters` | integrations/telegram_bot.py:90 | in a run of letters only the first is upper-cased, so `diskSpaceWarning` is headed `Diskspacewarning` |
| `Telegram.AlertLayoutParts` | integrations/telegram_bot.py:89-95 | the alert text carries the emoji, the heading and the details, each at a fixed place |
| `Telegram.TelegramBot.constructor` | integrations/telegram_bot.py:13-28 | every absent setting takes its default; without a file the bot is disabled, with no chats, no allowed kinds and the Markdown format |
| `Telegram.TelegramBot.Ready` | integrations/telegram_bot.py:30-42 | the gate is open only when enabled with a token and at least one chat; a disabled bot, a missing or empty token, or no chats closes it |
| `Telegram.TelegramBot.Accepts` | integrations/telegram_bot.py:69 | a kind passes only when the allow-list has it set to true; a kind the list does not mention is off |
| `Telegram.TelegramBot.ParseMode` | integrations/telegram_bot.py:45 | a non-empty requested parse mode wins; otherwise the configured format is used |
| `Telegram.TelegramBot.Posts` | integrations/telegram_bot.py:44-53 | with the gate open there is one post per chat id, in order, each with the message and the parse mode; with it closed there are none |
| `Telegram.TelegramBot.SendMessage` | integrations/telegram_bot.py:30-65 | the posts made are `Posts`, and the result is true exactly when the gate is open and every post came back 200 without an exception |
| `Telegram.TelegramBot.SendAlert` | integrations/telegram_bot.py:67-97 | nothing is posted unless the allow-list has the kind set; otherwise the alert text is posted to every chat |
| `Telegram.TelegramBot.SendNewBlock` | integrations/telegram_bot.py:113-128 | nothing is posted unless `newBlockFound` is allow-listed |
| `Config.TelegramOf` | integrations/telegram_bot.py:15-22 | a missing file, or a file without the section, reads as an empty section; a present section is read as it is |
| `Config.DiscordOf` | integrations/discord_webhook.py:15-21 | a missing file, or a file without the section, reads as an empty section; a present section is read as it is |
| `Discord.Colour` | integrations/discord_webhook.py:79-88 | red for pool offline and disk critical, orange for disk warning and high CPU, green for a new block, light red for node disconnected, teal for every other kind |
| `Discord.AlertTitle` | integrations/discord_webhook.py:89 | a warning sign and a space, then the kind character by character with `_` read as a space and every letter upper-cased, so no lower-case letter and no `_` is left |
| `Discord.NewBlockFields` | integrations/discord_webhook.py:98-119 | exactly four fields (Height, Reward, Effort, Miner), and only Miner is not inline |
| `Discord.DiscordWebhook.constructor` | integrations/discord_webhook.py:13-27 | every absent setting takes its default; without a file the webhook is disabled, with no allowed kinds and the default username |
| `Discord.DiscordWebhook.Ready` | integrations/discord_webhook.py:29-37 | the gate is open only when enabled with a webhook URL; a disabled webhook or a missing or empty URL closes it |
| `Discord.DiscordWebhook.Accepts` | integrations/discord_webhook.py:74 | a kind passes only when the allow-list has it set to true; a kind the list does not mention is off |
| `Discord.DiscordWebhook.EmbedPayload` | integrations/discord_webhook.py:39-58 | the configured username and exactly one embed; `fields` only when a non-empty list is given; `avatar_url` only when one is configured |
| `Discord.DiscordWebhook.SendEmbed` | integrations/discord_webhook.py:29-70 | nothing is posted when disabled or without a webhook URL; success is exactly a 204 answer |
| `Discord.DiscordWebhook.SendAlert` | integrations/discord_webhook.py:72-91 | nothing is posted unless the kind is allow-listed; the embed has the kind's title and colour |
| `Discord.DiscordWebhook.SendNewBlock` | integrations/discord_webhook.py:93-126 | gated by `newBlockFound`; the embed carries the four block fields in green |
| `Server.RouteOf` | dashboard/server.py:38-61 | the four monitoring paths match exactly; any other path under `/api` is proxied to the pool API with the path unchanged; `/` becomes the index page; every other path is served as is |
| `Server.QueryFallsThrough` | dashboard/server.py:40-56 | a monitoring path with a query string is proxied instead of handled |
| `Server.Row` | dashboard/server.py:164-167 | a line becomes a row only when it contains `\|`, and both cells of a row have no whitespace at either end |
| `Server.ProxyStatus` | dashboard/server.py:327-352 | an upstream success answers 200, an `HTTPError` forwards its code, and any other exception answers 500 |
| `Server.ProxyHeaders` | dashboard/server.py:333-350 | every proxy answer is JSON, and only a success also allows any origin before `end_headers` |
| `Server.ProxyBody` | dashboard/server.py:334-352 | only a success passes the upstream bytes through; failures answer a JSON error |
| `Server.DashboardHandler.constructor` | dashboard/server.py:22-24 | a request starts with its path and nothing sent |
| `Server.DashboardHandler.EndHeaders` | dashboard/server.py:26-32 | the three CORS headers and the cache header are appended |
| `Server.DashboardHandler.DoOptions` | dashboard/server.py:34-36 | an empty 200 with the CORS and cache headers |
| `Server.DashboardHandler.SendJsonResponse` | dashboard/server.py:304-310 | 200, JSON content type, any origin, then `end_headers`, then the body |
| `Server.DashboardHandler.SendErrorResponse` | dashboard/server.py:312-318 | 500, JSON content type, then `end_headers`, then `{"error": ...}` |
| `Server.DashboardHandler.ProxyApiRequest` | dashboard/server.py:320-353 | the URL requested is the base URL followed by the path; status, headers and body follow the upstream outcome |
| `Server.DashboardHandler.DoGet` | dashboard/server.py:38-61 | the route taken is `RouteOf` of the request path; `/` is rewritten to the index page; a proxied request is answered from the upstream outcome |
| `Server.RowIffOneBar` | dashboard/server.py:164-166 | a listing line becomes a row exactly when it holds one `\|` |
| `Server.Rows` | dashboard/server.py:163-167 | one row or non-row per line, in order |
| `Server.TablesOf` | dashboard/server.py:162-167 | the last line, when it is a row, ends up in the table with its size |
| `Server.TablesOfPrefix` | dashboard/server.py:163-167 | one more line adds its pair, if it is a row, to the table of the lines before it |
| `Server.TablesOfSnoc` | dashboard/server.py:163-167 | the last line adds or overwrites a name exactly when it is a row for that name |
| `Server.TablesOfKeys` | dashboard/server.py:163-167 | a name is in the table exactly when some line is a row for it |
| `Server.TablesOfLastWins` | dashboard/server.py:163-167 | a name's size is that of the last row for it, so later duplicates overwrite earlier ones |
| `Server.TablesOfEntries` | dashboard/server.py:164-167 | every entry of the table is the pair of some row |
| `Server.ListingLines` | dashboard/server.py:163 | the stripped output splits into at least one line, none holding a newline |
| `Server.ParseTables` | dashboard/server.py:161-167 | the loop builds exactly the table of the stripped output's lines |
| `Server.DuSize` | dashboard/server.py:92-99 | a raise or an empty output gives `'N/A'`, a non-zero exit gives nothing, and otherwise the first field of the output |
| `Server.DirectorySize` | dashboard/server.py:88-131 | a directory's entry is missing exactly when it exists and `du` exited with an error; a missing directory gets its non-empty default |
| `Server.DatabaseSize` | dashboard/server.py:76-86 | the database entry is missing exactly when `psql` exited with an error; otherwise it has no whitespace at either end |
| `Server.DiskComponents` | dashboard/server.py:74-131 | each component is listed, with its size, exactly when its size was found |
| `Server.ComponentDefaults` | dashboard/server.py:83-131 | a missing node or log directory is `'N/A'` and missing backups are `0B`; a raised probe is `'N/A'`; only a probe that exited with an error leaves its component out |
| `Text.StripRemovesSpaces` | dashboard/server.py:166 | `strip()` leaves no whitespace at either end and removes only whitespace |
| `Text.Split` | dashboard/server.py:163-165 | `split` with a separator always gives at least one part |
| `Text.SplitCount` | dashboard/server.py:165-166 | a split gives one more part than there are separators |
| `Text.SplitPartsFree` | dashboard/server.py:163-165 | no part of a split holds the separator |
| `Text.JoinSplit` | dashboard/server.py:163-165 | joining the parts with the separator gives back the text |
| `Text.Strip` | dashboard/server.py:84 | `strip()` never lengthens the text |
| `Text.StripSlice` | dashboard/server.py:84 | what `strip()` keeps is one contiguous slice of the text |
| `Text.StripEnds` | dashboard/server.py:84 | `strip()` leaves no whitespace at either end |
| `Text.FirstField` | dashboard/server.py:97 | `split()[0]`, when present, is a non-empty prefix of the text after its leading whitespace |
| `Text.ReplaceChar` | integrations/telegram_bot.py:90 | `replace` keeps the length and swaps exactly the matching characters |
| `Text.Upper` | integrations/discord_webhook.py:89 | `upper()` keeps the length and upper-cases every letter, leaving no lower-case letter |
| `Text.Title` | integrations/telegram_bot.py:90 | `title()` keeps the length; a letter is upper-cased when the character before it is not a letter, lower-cased otherwise, and other characters are kept |
| `Text.TitleAt` | integrations/telegram_bot.py:90 | each title-cased character depends only on itself and whether the one before it is a letter |
| `Text.ParseNatToString` | integrations/alert_monitor.py:89 | a status code rendered in decimal reads back as the same number |
| `Text.NatToStringInjective` | integrations/alert_monitor.py:89 | distinct status codes render to distinct texts |
| `Text.TenthsToString` | integrations/alert_monitor.py:116 | a percentage rounded to one decimal renders with exactly one digit after the point |
| `Text.FirstFieldBlank` | dashboard/server.py:97 | `split()[0]` finds nothing exactly when the output is all whitespace, and otherwise a non-empty field without whitespace |
| `Text.TitleIdempotent` | integrations/telegram_bot.py:90 | title-casing twice is title-casing once |
| `Admin.AdminSession.constructor` | dashboard/assets/js/admin.js:2-7 | the gate's settings, the stored session and the password field as given; access not granted |
| `Admin.AdminSession.CheckSession` | dashboard/assets/js/admin.js:48-68 | an open gate grants access without touching storage; otherwise access is granted exactly for a session younger than an hour, and an expired one is removed |
| `Admin.AdminSession.Authenticate` | dashboard/assets/js/admin.js:10-26 | an open gate grants access; otherwise only the exact password grants access and stores the time, and a wrong one clears the field |
| `Admin.LoginThenCheck` | dashboard/assets/js/admin.js:10-68 | a login with the right password at `t` followed by a page reload at `now` grants access exactly when `now` is less than one hour after `t`; the stored time is kept while access is granted and removed once it has expired |
| `Admin.PoolOf` | dashboard/assets/js/dashboard.js:66-77 | the page has a pool exactly when the fetch answered ok with a `pool` key; a failed fetch (`null`) and a reply without the key (`undefined`) both count as no pool |
| `Admin.IsApiResponding` | dashboard/assets/js/admin.js:491 | the API counts as responding exactly when the health probe succeeded or the fetch did not fail, even when the reply had no `pool` key; a working pool implies it |
| `Admin.ReplyWithoutPoolIsStarting` | dashboard/assets/js/admin.js:491-494 | with the health probe down, a reply without a `pool` key shows the pool as starting, and a failed fetch shows it offline |
| `Admin.PoolIsWorking` | dashboard/assets/js/admin.js:411 | the pool counts as working exactly when its network stats report a block height above 0 |
| `Admin.NodeIsConnected` | dashboard/assets/js/admin.js:116 | the node counts as connected exactly when the network stats report more than 0 peers |
| `Admin.SystemStatus` | dashboard/assets/js/admin.js:105-162 | pool Online iff working, Starting iff not working but responding, Offline otherwise; node Connected iff peers, Syncing iff no peers but working, Disconnected otherwise; API online iff working |
| `Admin.StatusIndicators` | dashboard/assets/js/admin.js:136-162 | the node indicator follows the node label, and the API indicator agrees with the pool label |
| `Admin.FailedUpdateStatus` | dashboard/assets/js/admin.js:519-523 | a failed dashboard update shows pool, node and API all offline |
| `Admin.ClassList.constructor` | dashboard/assets/js/admin.js:334 | an element with the given classes |
| `Admin.DiskBarClass` | dashboard/assets/js/admin.js:339-344 | critical exactly at 90% or more, warning exactly from 80% to below 90%, never both |
| `Admin.UpdateDiskBar` | dashboard/assets/js/admin.js:327-345 | without disk data the bar is untouched; otherwise both colour classes are removed and the one the usage calls for is added |
| `Admin.PoolAlerts` | dashboard/assets/js/admin.js:413-439 | without a working pool, exactly the error and the hint; with one, "running normally" first; no disk, CPU or memory entry |
| `Admin.MinerAlerts` | dashboard/assets/js/admin.js:418-432 | "waiting for miners" exactly when the stats report neither miners nor hashrate; never an error |
| `Admin.DiskAlerts` | dashboard/assets/js/admin.js:442-447 | at most one entry, and only disk entries |
| `Admin.CpuAlerts` | dashboard/assets/js/admin.js:450-454 | only a CPU warning, and only from 90% |
| `Admin.MemoryAlerts` | dashboard/assets/js/admin.js:457-461 | only a memory warning, and only from 90% of a present memory reading |
| `Admin.UpdateEnhancedAlerts` | dashboard/assets/js/admin.js:405-466 | the pushes build exactly the pool, disk, CPU and memory entries, in that order |
| `Admin.AlertList` | dashboard/assets/js/admin.js:405-466 | the list is never empty; it opens with "running normally" exactly when the pool works, and with the error exactly when it does not |
| `Admin.NotWorkingOpening` | dashboard/assets/js/admin.js:436-439 | without a working pool the list opens with the error and the hint, and never says "running normally" |
| `Admin.WorkingOpening` | dashboard/assets/js/admin.js:414-432 | with a working pool the list opens with "running normally", and "waiting for miners" appears exactly when miners and hashrate are both 0 |
| `Admin.DiskEntries` | dashboard/assets/js/admin.js:442-447 | at most one disk entry: the error exactly at 90% or more, the warning exactly from 80% to below 90% |
| `Admin.NoteOutside` | dashboard/assets/js/admin.js:405-466 | a disk entry cannot come from the pool, CPU or memory parts |
| `Admin.UsageWarnings` | dashboard/assets/js/admin.js:450-461 | the CPU and memory warnings are each decided by their own reading reaching 90% |
| `Admin.BarAgreesWithList` | dashboard/assets/js/admin.js:339-447 | the bar is critical exactly when the list has a disk error, and warning exactly when it has a disk warning |
| `Admin.MemoryAlertsAsWritten` | dashboard/assets/js/admin.js:457-461 | the memory check as written throws exactly when the metrics have no memory key |
| `Admin.AlertListAsWritten` | dashboard/assets/js/admin.js:405-466 | the list as written throws exactly when the metrics have no memory key, and whenever it renders it is the corrected list |
| `Admin.MissingMemoryThrows` | dashboard/assets/js/admin.js:457-461 | with memory absent the list as written is never shown, whatever the other readings; the corrected list then has no memory entry |
| `Dashboard.TruncateAddress` | dashboard/assets/js/dashboard.js:60-63 | an absent or short address is returned unchanged; a longer one keeps its first `start` and last `end` characters around `...`, for a length of `start + end + 3` |
| `Dashboard.TruncateIdempotent` | dashboard/assets/js/dashboard.js:60-63 | truncating twice is truncating once |
| `Dashboard.TimeAgo` | dashboard/assets/js/dashboard.js:48-49 | `--` exactly for an absent or zero timestamp |
| `Dashboard.TimeAgoBuckets` | dashboard/assets/js/dashboard.js:48-58 | the elapsed whole seconds pick seconds below 60; otherwise whole minutes (1 to 59), whole hours (1 to 23) or whole days |
| `Dashboard.AgoText` | dashboard/assets/js/dashboard.js:49-57 | `--` exactly for no timestamp; every other text ends in ` ago` |
| `Dashboard.Pow1000` | dashboard/assets/js/dashboard.js:26-29 | a unit's scale is at least 1 |
| `Dashboard.FormatHashrate` | dashboard/assets/js/dashboard.js:19-31 | zero exactly for an absent or zero hashrate; otherwise a unit up to PH/s whose scale times the value is the hashrate, with the value below 1000 except at PH/s and at least 1 above H/s |
| `Dashboard.FormatDifficulty` | dashboard/assets/js/dashboard.js:39-46 | `--` exactly for an absent or zero difficulty; otherwise the scaled value times the suffix is the difficulty, T exactly from 1e12, and the value is below 1000 below T and at least 1 with a suffix |
| `Dashboard.DifficultySuffixMonotone` | dashboard/assets/js/dashboard.js:39-46 | a larger difficulty never gets a smaller suffix |
| `Dashboard.EffortColour` | dashboard/assets/js/dashboard.js:187-192 | green below 50, yellow below 100, orange below 150, red from there on |
| `Dashboard.EffortColourMonotone` | dashboard/assets/js/dashboard.js:187-192 | more effort never moves the gauge to an earlier colour |
| `Dashboard.GaugePercentage` | dashboard/assets/js/dashboard.js:181 | the effort, capped at 200 |
| `Dashboard.Pushed` | dashboard/assets/js/dashboard.js:161-165 | a push keeps at most the cap, the newest value last, and grows by one until full |
| `Dashboard.PushedAll` | dashboard/assets/js/dashboard.js:161-165 | any number of pushes keeps the buffer within its cap |
| `Dashboard.LastNSnoc` | dashboard/assets/js/dashboard.js:161-165 | pushing onto the last `cap` values gives the last `cap` values with the new one |
| `Dashboard.PushedAllWindow` | dashboard/assets/js/dashboard.js:161-165 | a buffer always holds exactly the last `cap` values pushed onto it |
| `Dashboard.DashboardState.constructor` | dashboard/assets/js/dashboard.js:9-16 | empty histories and no chart |
| `Dashboard.DashboardState.UpdateHashrateChart` | dashboard/assets/js/dashboard.js:249-310 | without a canvas nothing changes; otherwise the chart exists and its labels and data each get one push within 24, staying equal in length |
| `Dashboard.DashboardState.RecordStats` | dashboard/assets/js/dashboard.js:160-170 | both sparklines get one push within 50, an absent or zero reading counting as 0, then the chart gets the hashrate |

## Left out

- HTTP requests, subprocesses (`docker`, `psql`, `du`, `top`, `free`), `shutil.disk_usage` and the file system are not modelled. Their outcomes are inputs: a status code, a parsed reply or an exception tag; an exit code with its output; whether a directory exists.
- The clock (`datetime.now`, `Date.now`) is a parameter, and the sleeps between iterations are left out.
- `print`, `console.log` and `sys.stderr` output are left out.
- The monitor's `__main__` block, `TelegramBot.test_connection`, `TelegramBot.send_pool_status`, `skipAuth`, `logout` and every page initialisation function are left out.
- The shell-output parsing of `handle_performance_metrics` and `handle_docker_stats`, and the float arithmetic and rounding of `handle_disk_info` (GB conversion, `round`), are not modelled. Percentages arrive already rounded, in tenths.
- The static file serving of `SimpleHTTPRequestHandler`, and the bodies of the four monitoring handlers, are not modelled. `Server.DashboardHandler.DoGet` records the route taken and the rewritten path for them.
- The JSON encoding of response bodies is not modelled. `Server.Body` says which object is sent.
- Monitor.AlertMonitor.Announce: the start and stop messages are recorded as one delivery per ready channel. Their texts and the posts' results are not recorded.
- Monitor.Delivery: records the channel and the alert kind of each message, not its full payload. The payload each channel builds is stated by the channel's own methods.
- The interrupt handling of `run` (`KeyboardInterrupt`) is modelled as the end of a finite sequence of iterations. The generic `except` that logs and sleeps is left out, since every check already catches its own errors.
- Python's `str.title()` and `str.upper()` are modelled on ASCII letters only.
- Telegram and Discord texts carry each number as a string already rendered, since the monitor and the config pass strings.
- The alert texts render a percentage in tenths with exactly one decimal (`Text.TenthsToString`), as Python prints a float rounded to one decimal. Python's general float printing is not modelled.
- Admin.Note: carries the numbers of each alert message, not their JavaScript rendering (`formatHashrate` inside the hashrate note).
- Admin.PoolStats: the pool hashrate is an integer, because only its comparison with zero matters here.
- Admin.AdminSession.CheckSession: the stored session is an already-parsed integer. A stored value that `parseInt` reads as `NaN` is not modelled.
- The DOM updates (`innerHTML`, text content, gauge arc geometry, `drawSparkline` coordinates), Chart.js options, `toFixed` and `toLocaleString` are not modelled.
- Dashboard.FormatHashrate and Dashboard.FormatDifficulty: JavaScript numbers are reals. Their `toFixed(2)` rendering is not modelled, nor are NaN and the infinities.
- Dashboard.TimeAgo: timestamps are integers in milliseconds. A timestamp that `new Date` cannot parse is not modelled.
- `Promise.all` and the threaded request handling are left out, since every modelled step runs alone.

## Findings

| source | as written | input that shows it | evidently intended | confidence | as-written member | corrected member |
|---|---|---|---|---|---|---|
| dashboard/assets/js/admin.js:457-461 | the memory alert tests only `memory !== 'N/A'` before reading `memory.usagePercent` | performance metrics without a `memory` key, which `dashboard/server.py` sends when `free -m` exits with an error or prints fewer than two lines (lines 221-236): reading `usagePercent` of `undefined` throws a `TypeError`, the alert list is not shown, and the catch at lines 519-523 marks the pool, node and API offline (`Admin.FailedUpdateStatus`) | guard with `metrics.memory && metrics.memory !== 'N/A'`, as `updateSystemResources` does at line 355, so that an absent memory reading adds no entry | high (not executed) | `Admin.AlertListAsWritten`, `Admin.MissingMemoryThrows` | `Admin.UpdateEnhancedAlerts`, `Admin.UsageWarnings` |
