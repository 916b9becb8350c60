# Daily intraday archive job, modelled in Dafny

The job runs once a day. It walks a fixed table of NSE instruments in insertion order.
For each one it downloads that day's one-minute bars. It skips an instrument whose download is empty.
Otherwise it converts the bar index to Asia/Kolkata time and finds or creates the folders
`root/<sector>/<company>` on a remote hierarchical store. It then uploads a new file named
`<symbol without ^, with . as _>_YYYY_MM_DD.parquet` into the company folder.

The model has five modules plus a small `Wrappers` module holding `Option`:

- `Calendar` (calendar.dfy): run dates and the day after them. It covers the `%Y-%m-%d` and
  `%Y_%m_%d` renderings and a parser that reads them back. It also gives day numbers as an
  independent reference for "one calendar day later".
- `ArtifactNames` (artifact_names.dfy): the symbol sanitizer and the upload file name, with a
  parser for the name.
- `TimeNormalizer` (time_normalizer.dfy): the index conversion. Instants are whole minutes since
  the Unix epoch. A naive index is localized to UTC. Every row is then shown at the fixed
  Asia/Kolkata offset of +330 minutes.
- `DriveStore` (drive_store.dfy): the remote store. Each node has an id, name, parent, folder
  flag, trashed flag and content, and ids come from a counter. `State` with `FolderQuery`,
  `Create` and `FindOrCreate` is the value-level specification. `Drive` is the mutable store as
  a class with a node sequence and a next-id counter. `GetOrCreateFolder` is
  `get_or_create_folder`, proved against `FindOrCreate`.
- `DailyJob` (daily_job.dfy): the symbol table, the download request, the loop body `Step`, and
  the whole loop `RunSpec`. It holds the lemmas about them and `RunDailyJob`, the `for` loop of
  `main`, proved against `RunSpec`.

The code keeps no record of earlier runs. It has no upsert that keeps one file per symbol and date,
no retries, no run summary, no worker pool, no folder cache and no external symbol registry. Each
upload creates a new file, and the model follows the code. `RerunAddsOnlyFiles` states the
result at run level. Rerunning the whole table on the same date with the same data creates no
folder. Every instrument with data then has two files with the same name, parent and rows, one
from each run. `StepTwiceDuplicatesFile` states the same for two consecutive passes of one entry.

A regular NSE session has 375 one-minute bars, from 03:45 to 09:59 UTC. `SessionExample` states
that after conversion they read 09:15 to 15:29 in Kolkata.

## Model

| member | source | states |
|---|---|---|
| Calendar.NextDay | main.py:155 | the day after a valid date is a valid, later date; there is none exactly for 9999-12-31, where adding a day overflows |
| Calendar.NextDayIsOneDayLater | main.py:155 | the next day's day number is the run date's plus one |
| Calendar.NextDayUnique | main.py:155 | a valid date has the next day number if and only if it is the next day |
| Calendar.OrdinalMonotone | main.py:155 | day numbers follow calendar order, so distinct dates have distinct day numbers |
| Calendar.FormatDate | main.py:140 | `strftime("%Y<sep>%m<sep>%d")` (also main.py:155 and main.py:173): ten characters with the separator at positions 4 and 7; FormatDateRoundTrip gives it its full meaning |
| Calendar.FormatDateRoundTrip | main.py:140 | a date rendered as `%Y<sep>%m<sep>%d` parses back to the same date |
| Calendar.FormatDateInjective | main.py:140 | distinct dates render to distinct strings |
| Calendar.FormatDateExample | main.py:155 | 2026-01-14 renders as `2026-01-14` and `2026_01_14`, and its next day renders as `2026-01-15` |
| ArtifactNames.Sanitize | main.py:173 | the sanitized symbol contains no `^` and no `.` and is no longer than the symbol |
| ArtifactNames.SanitizeOneChar | main.py:173 | on one character: `^` is dropped, `.` becomes `_`, and any other character is kept |
| ArtifactNames.SanitizeConcat | main.py:173 | sanitizing distributes over concatenation, so every other character is kept in order |
| ArtifactNames.SanitizeIdempotent | main.py:173 | a symbol without `^` and `.` is unchanged, and sanitizing twice is sanitizing once |
| ArtifactNames.SanitizeLength | main.py:173 | the result is shorter than the symbol by exactly the number of `^` characters |
| ArtifactNames.SanitizeShapes | main.py:173 | `BASE.EXT` becomes `BASE_EXT` and `^BASE` becomes `BASE` for clean parts |
| ArtifactNames.SanitizeExamples | main.py:18-51 | `RELIANCE.NS`, `^NSEI`, `M&M.NS` and `BAJAJ-AUTO.NS` sanitize to `RELIANCE_NS`, `NSEI`, `M&M_NS` and `BAJAJ-AUTO_NS` |
| ArtifactNames.ArtifactName | main.py:173 | the file name is the sanitized symbol plus 19 characters and ends in `.parquet` |
| ArtifactNames.ArtifactNameRoundTrip | main.py:173 | parsing the file name gives back the sanitized symbol and the run date |
| ArtifactNames.ArtifactNameInjective | main.py:173 | two file names are equal if and only if the sanitized symbols and the dates are equal |
| ArtifactNames.ArtifactNameExample | data.py:5-10 | `RELIANCE.NS` on 2026-01-14 gives `RELIANCE_NS_2026_01_14.parquet` |
| TimeNormalizer.LocalizeUtc | main.py:164 | each naive wall-clock time becomes the same instant at offset 0; the number and order of rows are kept |
| TimeNormalizer.ConvertTo | main.py:164-166 | each row keeps its instant and bar and gets the target offset; the number and order of rows are kept |
| TimeNormalizer.Normalize | main.py:163-168 | the output has one record per input row, in order: the row's UTC instant (naive read as UTC) shown at +05:30, with the row's bar |
| TimeNormalizer.NormalizeKeepsOrder | main.py:163-166 | a chronological frame stays chronological in instants and in Kolkata wall-clock time |
| TimeNormalizer.NaiveReadAsUtc | main.py:163-164 | a naive row's Kolkata wall-clock time is its naive time plus 330 minutes |
| TimeNormalizer.AwareKeepsInstant | main.py:165-166 | an aware row keeps its instant; only the shown offset changes to +330 |
| TimeNormalizer.NormalizeIdempotent | main.py:163-166 | converting an already converted series changes nothing |
| TimeNormalizer.SessionExample | main.py:163-164 | 375 naive bars from 03:45 UTC stay 375 rows; the first reads 09:15 and the last 15:29 in Kolkata |
| DriveStore.FolderQuery | main.py:104-111 | the list call with the name/parent/folder/not-trashed query: lists no more ids than there are nodes; FolderQueryEmpty and FolderQueryFirst state which ids it lists |
| DriveStore.FolderQueryEmpty | main.py:104-113 | the folder query is empty if and only if no live folder with that name sits under that parent |
| DriveStore.FolderQueryFirst | main.py:113-114 | the query's first id is the earliest-created matching folder |
| DriveStore.FolderQueryAppend | main.py:104-111 | querying a grown store lists the old matches first, then the new ones |
| DriveStore.FolderQueryAtMostOne | main.py:110-114 | where no two live folders share a name and a parent, the query lists at most one id, so `files[0]` does not depend on the listing order |
| DriveStore.Create | main.py:122-124 | creating keeps ids distinct and below the counter, and the new id is not among the existing ids |
| DriveStore.FindOrCreate | main.py:103-126 | find-or-create keeps the store valid |
| DriveStore.FindOrCreateSpec | main.py:103-126 | with a match: returns the first match and changes nothing; without: appends exactly one folder with this name and parent and a fresh id and returns it; afterwards the returned id is the query's first match |
| DriveStore.FindOrCreateGrows | main.py:116-126 | find-or-create keeps the store valid and appends at most one node, which is a folder, leaving existing nodes unchanged |
| DriveStore.FindOrCreateStable | main.py:113-114 | whatever is created later, the returned folder stays the query's first match |
| DriveStore.FindOrCreateTwice | main.py:103-126 | two calls in a row with the same name and parent return the same id; the second creates nothing, and at most one folder is created across both calls |
| DriveStore.FindOrCreateNoDup | main.py:103-126 | find-or-create never adds a second live folder with the same name under the same parent |
| DriveStore.Drive.ListFolders | main.py:110-111 | the listed ids are the matching folders' ids; the list is empty if and only if no live folder matches |
| DriveStore.Drive.CreateNode | main.py:122-124 | appends one node with the next, fresh id, even when a node with the same name and parent exists |
| DriveStore.GetOrCreateFolder | main.py:103-126 | `get_or_create_folder`: returns the first listed folder and leaves the store unchanged, or creates exactly one folder and returns its id; the store stays valid |
| DailyJob.SymbolMap | main.py:17-82 | the instrument universe in insertion order, one entry per key with its sector and company; no contract of its own, SymbolMapSize states its size and first entry |
| DailyJob.SymbolMapSize | main.py:17-82 | the universe has 55 entries and starts with `^NSEI` in Nifty / Nifty 50 |
| DailyJob.FetchRequest | main.py:151-157 | the download asks for this symbol at interval `1m`; there is no request only when computing the end date overflows |
| DailyJob.FetchWindowIsOneDay | main.py:154-155 | the window's start parses as the run date, and its end parses as the date one day number later |
| DailyJob.ResolvePathStable | main.py:170-171 | a resolved root/sector/company path keeps resolving to the same folder whatever is created afterwards |
| DailyJob.ResolveFolders | main.py:170-171 | the sector folder under the root, then the company folder under it; no contract of its own, ResolveFoldersSpec states it |
| DailyJob.ResolveFoldersSpec | main.py:170-171 | the two folder calls append at most two folders and nothing else; the returned id is the folder the path resolves to |
| DailyJob.Step | main.py:151-194 | one pass of the loop body; no contract of its own, StepSpec states it |
| DailyJob.StepSpec | main.py:159-194 | an empty download leaves the store unchanged; otherwise at most two folders and then exactly one file are appended; the file has the artifact name and the normalized rows, and its parent is the resolved company folder |
| DailyJob.StepGrows | main.py:159-171 | one loop pass keeps the store valid and only appends; after a non-empty download the path is resolved |
| DailyJob.StepWhenResolved | main.py:170-194 | with the path already resolved, a non-empty instrument appends exactly its file and no folder |
| DailyJob.StepTwiceDuplicatesFile | main.py:190-194 | a second pass for the same instrument and date appends one more file with the same name and parent and a different id |
| DailyJob.StepNoDup | main.py:159-194 | one pass of the loop body never creates a duplicate sector or company folder |
| DailyJob.RunSpec | main.py:148-196 | the loop over the table in order; no contract of its own, RunOnlyAppends, RunArchivesAll and RunNoDup state it |
| DailyJob.RunOnlyAppends | main.py:148-196 | a run keeps the store valid and leaves every existing node in place |
| DailyJob.RunNoDup | main.py:148-196 | from a store without duplicate folders, a run leaves none, so every folder query of this and later runs lists at most one id |
| DailyJob.RunResolvesAll | main.py:148-171 | after a run, every instrument that had data has its root/sector/company path resolved |
| DailyJob.RunArchivesAll | main.py:148-194 | after a run from any store, every instrument with data has among the appended nodes its file: the artifact name, the normalized rows, and the folder its root/sector/company path resolves to as parent |
| DailyJob.RunAppendsOnlyArchives | main.py:148-194 | from a store where all paths are resolved, every node a run appends is the file of an instrument with data, in its resolved company folder |
| DailyJob.RunAppendCount | main.py:148-194 | from a store where all paths are resolved, a run appends exactly as many nodes as instruments with data, and no folder |
| DailyJob.RunWhenResolved | main.py:148-194 | from a store where all paths are resolved, a run appends no folder, one node per instrument with data, each appended node is such an instrument's file, and each such instrument has its file among them |
| DailyJob.RerunAddsOnlyFiles | main.py:148-194 | rerunning on the same date with the same data creates no folder and appends only files; every instrument with data then has its file (same name, parent and rows) both among the first run's nodes and among the second run's |
| DailyJob.RelianceExample | main.py:19 | RELIANCE.NS on 2026-01-14 requests 2026-01-14 to 2026-01-15 and uploads `RELIANCE_NS_2026_01_14.parquet` with all 375 rows into the resolved Nifty/Reliance Industries folder |
| DailyJob.RunDailyJob | main.py:143-196 | `main`: with no root folder id it fails and changes nothing; on 9999-12-31 with a non-empty table it fails at the first entry and changes nothing; otherwise the store ends as the loop specification says |

## Left out

- Credentials and the client (`get_drive_service`) are left out: environment variables, JSON parsing and the OAuth service build are configuration and library calls. The root folder id is a parameter. `None` stands for an unset or empty `DRIVE_FOLDER_ID`.
- The market-data download is a function parameter from the request to the returned frame. Network failures and throttling are left out. The rerun lemmas assume the same data on both runs.
- Parquet serialization and the upload buffer are left out. An uploaded file's content is the sequence of normalized records.
- Any failing remote call raises in the real job and ends the run. The model's store calls always succeed.
- The Drive query string is modelled as an exact-name lookup. The real query interpolates names without escaping. Company names containing `'` (`Dr. Reddy's` and `Divi's Labs`, main.py:67 and main.py:69) make the real query malformed, so the run would stop at that instrument.
- The Drive list order is not specified by the store, and the job sets no ordering. The model lists matches in creation order. Only the first page of results matters, since only `files[0]` is used.
- DriveStore.FindOrCreateStable, DriveStore.FindOrCreateTwice, DailyJob.ResolvePathStable and the same-parent part of DailyJob.RerunAddsOnlyFiles rely on that creation order when the store already holds two live folders with the same name and parent; the real job promises none of them there. Where there are no such duplicates, `FolderQueryAtMostOne` shows the query has at most one hit, so they hold for any listing order, and `RunNoDup` shows that the job's runs never create such duplicates.
- The real clock and time-zone database are left out. The run date is a parameter, and Asia/Kolkata is the fixed offset +330 minutes with no daylight saving. Timestamps are whole minutes instead of nanoseconds.
- Calendar.FormatDate: years below 1000 are written with four zero-padded digits; the platform's `%Y` may write fewer.
- The bar columns are kept opaque (open, high, low, close, volume). An empty frame means zero rows.
- Logging (`print`) is left out. data.py, which reads one uploaded file back, is not part of this model beyond its example file name.
- The table's keys are distinct because they are dictionary keys. No lemma proves this for the table constant.
- The root folder id is not required to name a folder of the store; in the real store it names an existing folder. In the model a root id that the counter has not yet handed out can later be given to a created folder, even to one created under that root. No stated property depends on the root being a node.
- Nothing in the job trashes a node. The trashed flag only affects the folder query.
