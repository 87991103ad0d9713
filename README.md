# Retention policy of the Dathost cleanup job

This project models the file-retention decision of the cleanup job in
`cleanup.py`. The job lists folders on a hosted game server, decides which
paths to delete, and sends one delete request per path. The model covers
that decision and the order of the requests:

- **Root round files.** A root entry is deleted when its whole name matches
  `matchzy_*_*_round*.txt`. Matching is POSIX `fnmatch`: case-sensitive, and
  `*` matches any run of characters (`Glob`, `Cleanup.RoundFileOfShape`).
- **Data folders.** Every entry of `MatchZy`, `MatchZyDataBackup` and
  `MatchZy_Stats` is deleted as `folder/entry`.
- **Dated logs.** An entry of `/addons/counterstrikesharp/logs` or `/logs` is
  deleted when its date is past retention. The date is the leftmost
  `\d{8}` or `\d{4}_\d{2}_\d{2}` in the name. It is read with `%Y%m%d` or
  `%Y_%m_%d` (`DateText`, `Calendar`), and the file is deleted when that
  date's midnight is strictly before `now - retention_days` (`Retention`).
- **Drivers.** `cleanup_for_server` is `Cleanup.CleanupForServer`, built from
  the loops of its three passes. `main` is `Cleanup.RunCleanup`, which loops
  over the configured servers. Each method is proved equal to a specification
  function (`ServerPlan`, `JobPlan`), and the lemmas state what those
  functions promise.

Inputs and outputs:

- A server's listings are a map from folder path to the listed entry paths.
  The root folder is `""`. A folder missing from the map stands for a blank
  response, which the job reads as `[]`.
- `now` and `retention_days` are parameters.
- Times are instants counted in microseconds from 0001-01-01 00:00:00, the
  resolution of Python's `datetime`. A parsed date stands for its midnight.
- Python compares `datetime`s field by field. The model compares instants
  instead. For the date part, `Calendar.OrdinalOrder` proves that the two
  comparisons agree. The time of day enters through how instants are built:
  a parsed date stands for its midnight, and `Retention.ShouldDeleteByDays`
  states the comparison with `now` in whole days and the time of day.

Notes on what the code does:

- The root pass uses the single pattern `matchzy_*_*_round*.txt`
  (cleanup.py:66).
- The job sends credentials with every request but makes no separate
  authentication call (cleanup.py:32, 39).
- A listing whose body is blank reads as `[]`. Any other body goes to
  `response.json()` (cleanup.py:33).
- With retention 7 days and `now` = 2024-01-10 00:00, a file dated
  2024-01-03 is kept. At any later instant that day it is deleted
  (`Retention.WeekAtMidnight`, `Retention.ExactBoundary`).

## Model

| member | source | states |
|---|---|---|
| Glob.FnMatch | cleanup.py:68 | the pattern `*` matches every name |
| Glob.PlainPrefix | cleanup.py:68 | a pattern that starts with plain text matches a name iff the name starts with that text and the rest of the name matches the rest of the pattern |
| Glob.StarPrefix | cleanup.py:68 | a leading `*` matches a name iff some suffix of the name (possibly all of it) matches the rest of the pattern |
| Glob.StarThenPlain | cleanup.py:68 | `*` followed by text matches any prefix, then that text, then a match of the rest |
| Glob.SplitAtStar | cleanup.py:68 | a match of `*` followed by text splits the name into some prefix, that text, and a match of the rest |
| Cleanup.IsRoundFile | cleanup.py:66-68 | a name matching the root pattern starts with `matchzy_` |
| Cleanup.RoundFileOfShape | cleanup.py:66-68 | every name `matchzy_<a>_<b>_round<c>.txt` matches the root pattern, for any a, b, c (including empty text and `/`) |
| Cleanup.ShapeOfRoundFile | cleanup.py:66-68 | every name matching the root pattern is `matchzy_<a>_<b>_round<c>.txt` for some a, b, c |
| Cleanup.RoundFileStart | cleanup.py:66-68 | a matching name begins with lower-case `m` (matching is case-sensitive) |
| Cleanup.RoundFileExamples | cleanup.py:66-68 | `matchzy_1_2_round3.txt` matches and `notes.txt` does not |
| Cleanup.RootDeletes | cleanup.py:67-70 | the root pass requests at most one path per listed entry |
| Cleanup.RootDeletesMembers | cleanup.py:67-70 | a path is requested by the root pass iff it was listed at the root and matches the pattern |
| Cleanup.RootDeletesAppend | cleanup.py:67-70 | the root pass keeps listing order: selecting from two runs of entries selects from the first, then from the second |
| Cleanup.SelectRoundFiles | cleanup.py:65-70 | the root loop requests exactly the root-pass selection, in listing order |
| Cleanup.UnderFolder | cleanup.py:76-77 | a folder pass yields exactly one path per listed entry, at the same position, `folder + "/" + entry` |
| Cleanup.UnderFolderAppend | cleanup.py:76-77 | folder paths keep listing order across runs of entries |
| Cleanup.UnderFolderPrefix | cleanup.py:77 | every path requested under a folder starts with `folder/` |
| Cleanup.JoinedInUnderFolder | cleanup.py:76-77 | `folder/e` is requested from a folder's entries iff `e` is one of them |
| Cleanup.EmptyFolder | cleanup.py:76-77 | one data folder's loop requests `folder/entry` for every listed entry, in listing order |
| Cleanup.EmptyDataFolders | cleanup.py:73-77 | the data-folder loops request every entry of `MatchZy`, `MatchZyDataBackup` and `MatchZy_Stats`, folder by folder, in listing order |
| Cleanup.ExpiredEntries | cleanup.py:87-91 | a log folder's pass selects at most one entry per listed entry |
| Cleanup.ExpiredEntriesMembers | cleanup.py:87-91 | a log entry is selected iff it was listed and `should_delete_file` holds of the date read from its name |
| Cleanup.ExpiredEntriesAppend | cleanup.py:87-91 | the log pass keeps listing order: selecting from two runs of entries selects from the first, then from the second |
| Cleanup.ExpiredEntriesStep | cleanup.py:87-91 | one more listed entry adds itself to the selection exactly when its date is past retention |
| Cleanup.SelectExpiredIn | cleanup.py:86-91 | one log folder's loop requests `folder/entry` for exactly the expired entries, in listing order (`ExpiredEntriesAppend`) |
| Cleanup.SelectExpiredLogs | cleanup.py:80-91 | the log loops visit `/addons/counterstrikesharp/logs` with `%Y%m%d`, then `/logs` with `%Y_%m_%d` |
| Cleanup.ServerPlan | cleanup.py:62-91 | a server's requests number its root matches, plus every entry of the three data folders, plus the expired entries of the two log folders |
| Cleanup.CleanupForServer | cleanup.py:62-93 | one server's requests are exactly the server plan |
| Cleanup.PlanOrder | cleanup.py:62-91 | a server's requests are root matches, then `MatchZy`, `MatchZyDataBackup`, `MatchZy_Stats`, then the two log folders, each group in listing order |
| Cleanup.DataFolderOrder | cleanup.py:73-77 | the data folders are emptied in the order `MatchZy`, `MatchZyDataBackup`, `MatchZy_Stats` |
| Cleanup.LogFolderOrder | cleanup.py:80-84 | the counterstrikesharp log folder is visited before `/logs` |
| Cleanup.PlanMembers | cleanup.py:62-91 | a path is requested iff one of the six passes (root, three data folders, two log folders) requests it |
| Cleanup.PlanSize | cleanup.py:62-91 | at most one request per listed entry, and at least one per data-folder entry |
| Cleanup.RootEntryDeletedIff | cleanup.py:65-70 | a slash-free name is requested iff it was listed at the root and matches the pattern, so `notes.txt` is never requested |
| Cleanup.DataEntryOutsideDataPasses | cleanup.py:62-91 | a path under a data folder is requested by neither the root pass nor a log-folder pass |
| Cleanup.DataEntryInOwnPass | cleanup.py:76-77 | within its own data folder's pass, `folder/e` is requested iff `e` was listed there |
| Cleanup.DataEntryDeletedIff | cleanup.py:73-77 | `folder/e` is requested for a data folder iff `e` was listed in that folder, with no name or date check |
| Cleanup.OtherDataFolders | cleanup.py:73-77 | a path under one data folder never comes from another data folder |
| Cleanup.LogEntryInOwnPass | cleanup.py:86-91 | within its own log folder's pass, `logfolder/e` is requested iff `e` was listed there and its date is past retention |
| Cleanup.LogEntryOnlyInOwnPass | cleanup.py:62-91 | a path under a log folder is requested by no pass but that folder's own |
| Cleanup.LogEntryDeletedIff | cleanup.py:80-91 | `logfolder/e` is requested iff `e` was listed there, its date parses and is before the cutoff; undated or unparseable entries are never requested |
| Cleanup.EmptyListingPlan | cleanup.py:62-91 | a server with nothing listed gets no requests |
| Cleanup.RootOnlyPlan | cleanup.py:62-91 | a server listing only root files gets exactly its root matches |
| Cleanup.Addressed | cleanup.py:70-91 | each path of a server's plan becomes one request addressed to that server, in order. The source passes the server ID to every `delete_content` call (lines 70, 77, 91); the model addresses the plan's paths after computing it, which gives the same sequence of requests |
| Cleanup.AddressAll | cleanup.py:70-91 | addressing a server's plan path by path gives one request per path, addressed to that server, in order, as the `delete_content(server_id, …)` calls of the three passes (lines 70, 77, 91) do |
| Cleanup.Gathered | cleanup.py:96-97 | every request gathered over a list of servers is addressed to one of those servers |
| Cleanup.JobPlan | cleanup.py:95-97 | every request the job makes is addressed to a configured server |
| Cleanup.RunCleanup | cleanup.py:95-97 | the job's requests are each configured server's plan, server after server, in configured order |
| Cleanup.GatheredAppend | cleanup.py:96-97 | the requests for two runs of servers are those of the first run, then those of the second |
| Cleanup.GatheredMembers | cleanup.py:96-97 | a request is made iff its server is configured and its path is in that server's plan |
| Cleanup.JobPlanMembers | cleanup.py:95-97 | the job requests a path for a server iff the server is configured and the path is in its cleanup plan |
| Cleanup.TwoServerExample | cleanup.py:62-70 | servers A (one round file, `notes.txt`) and B (nothing listed) give exactly one request, for A's round file |
| DateText.SearchFrom | cleanup.py:47 | the search returns the leftmost position where the date shape occurs, or nothing when it occurs nowhere |
| DateText.Extract | cleanup.py:47 | the extracted text always has the date shape of the folder's expression |
| DateText.Num | cleanup.py:50 | a run of n digits reads as a number in `[0, 10^n)` |
| DateText.Pad | cleanup.py:50 | zero-padded writing gives exactly w digits |
| DateText.NumPad | cleanup.py:50 | writing a number in w digits, then reading them, gives the number back |
| DateText.PadNum | cleanup.py:50 | reading digits, then writing the number in as many digits, gives the digits back |
| DateText.Format | cleanup.py:81-82 | a date written as `YYYYMMDD` or `YYYY_MM_DD` has the shape the folder's expression matches |
| DateText.FieldsOfFormat | cleanup.py:50 | the fields read from a written date are that date |
| DateText.FormatOfFields | cleanup.py:50 | a matched text whose fields form a valid date is that date written in the format |
| DateText.ParseFormat | cleanup.py:49-50 | round trip: a valid date written in the folder's format parses back to itself |
| DateText.ParseIffFormat | cleanup.py:49-53 | a matched text parses to d iff it is d written in the format; it parses to nothing iff it spells no valid date |
| DateText.Parse | cleanup.py:49-53 | a date that `strptime` reads from a matched text, written back in the same format, is that text |
| DateText.ParseDateFromFilename | cleanup.py:45-53 | no match gives `None`; a date read from a name, written back in the format, is the text the search matched |
| DateText.ParseDateFromFilenameSource | cleanup.py:45-53 | a name without the date shape gives `None`; a date read from a name is written at the leftmost occurrence of the shape; conversely, the text at the leftmost occurrence is what gets parsed, so a valid date there is read |
| DateText.FilenameRoundTrip | cleanup.py:45-53 | a date written in a name after a digit-free prefix is read back, whatever follows it |
| DateText.LeftmostMatchOnly | cleanup.py:47-53 | only the leftmost match is read: `x99999999_20240101.log` gives `None` |
| DateText.SplitShaped | cleanup.py:47-50 | a matched piece of text is year digits, separator, month digits, separator, day digits |
| DateText.ParseCompactChars | cleanup.py:49-53 | `%Y%m%d` on eight digits gives the date their fields spell when it is valid, and `None` otherwise |
| DateText.RejectsMonth13 | cleanup.py:49-53 | `20241301` gives `None` |
| DateText.RejectsDay00 | cleanup.py:49-53 | `20240100` gives `None` |
| DateText.RejectsFebruary30 | cleanup.py:49-53 | `20240230` gives `None` |
| DateText.RejectsYear0000 | cleanup.py:49-53 | `00000101` gives `None`: year 0 is below `datetime`'s range |
| DateText.NoLeapDay1900 | cleanup.py:49-53 | `19000229` gives `None`: 1900 is not a leap year |
| DateText.LeapDay2024 | cleanup.py:49-53 | `20240229` gives 29 February 2024 |
| Calendar.MonthsFillYear | cleanup.py:50 | the twelve months fill the year: 365 days, or 366 in a Gregorian leap year |
| Calendar.NextYear | cleanup.py:58 | one year's days follow the last: the divisions by 4, 100 and 400 count exactly the leap years |
| Calendar.MaxOrdinalIsLastDay | cleanup.py:58 | 9999-12-31 is day 3652059 |
| Calendar.MonthWithinYear | cleanup.py:59 | the days before a month and the days of that month fit inside its year |
| Calendar.Ordinal | cleanup.py:59 | a date's day number lies inside its own year: after every day of the earlier years, and at most a year's days after them |
| Calendar.OrdinalOrder | cleanup.py:59 | calendar order of valid dates and order of their day numbers agree, in both directions, and equal day numbers mean equal dates |
| Calendar.OrdinalBefore | cleanup.py:59 | an earlier date has a smaller day number |
| Retention.OrdinalBounds | cleanup.py:58-59 | every valid date lies between day 1 and the last day a `datetime` can hold |
| Retention.Midnight | cleanup.py:50 | a parsed date's midnight is an instant `datetime` can hold, on a day boundary |
| Retention.Cutoff | cleanup.py:58 | the cutoff falls `retention_days` whole days before `now`, at the same time of day |
| Retention.ShouldDelete | cleanup.py:55-60 | no date means the file is kept |
| Retention.ShouldDeleteByDays | cleanup.py:58-59 | a dated file is deleted iff its date is more than the retention before today, or exactly that much and `now` is past midnight |
| Retention.ExactBoundary | cleanup.py:58-59 | a file dated exactly `retention_days` ago is deleted iff `now` is not exactly midnight |
| Retention.OlderAlsoDeleted | cleanup.py:58-59 | if a date is deleted, every earlier date is deleted |
| Retention.LongerRetentionKeeps | cleanup.py:58-59 | raising `retention_days` never makes a kept date deletable |
| Retention.WeekAtMidnight | cleanup.py:55-60 | with 7 days at 2024-01-10 midnight, 2024-01-03 is kept and 2024-01-02 deleted; one microsecond later, 2024-01-03 is deleted too |

## Left out

- HTTP: `list_files_in_folder` and `delete_content` (cleanup.py:28-43) are I/O. Listings are an input map and deletions are the output sequence. Status codes and response bodies are not modelled.
- A listing response that is not JSON makes `response.json()` raise (cleanup.py:33). Transport failures are not modelled.
- The percent-encoding of the path in the delete URL (cleanup.py:37) is not modelled. A request carries the plain path.
- The clock: `datetime.now()` (cleanup.py:58) becomes the single parameter `now`. The source reads the clock afresh for every dated log entry; see the `Cleanup.CleanupForServer` and `Cleanup.RunCleanup` lines below.
- Environment loading, the parsing of `LOG_RETENTION_DAYS` and `SERVER_IDS`, the log directory and all log messages (cleanup.py:9-26, 52, 63, 69, 90, 93) are configuration and I/O. The server list and retention days are parameters.
- `keepalive.py` and `keepalive_no_reassignment.py` are outside the cleanup job and are not part of this model. Their only decisions are an authentication check that exits on a non-200 response (keepalive.py:24-32), and a start request whose body depends on one boolean flag (keepalive.py:14, 39-46). `keepalive_no_reassignment.py` always sends the empty start request (keepalive_no_reassignment.py:27).
- Glob.FnMatch: requires a pattern without `[`. Bracket expressions are not modelled, and the one pattern the job uses has none.
- DateText.Parse: models `strptime` only on text that has the regular expression's shape. That is the only text the job passes to it.
- DateText.IsDigit: `\d` is ASCII `0`-`9`. Other Unicode decimal digits are not modelled.
- Cleanup.CleanupForServer: requires `now` and the cutoff to be `datetime` instants. The `OverflowError` of an out-of-range cutoff is not modelled.
- Cleanup.CleanupForServer: judges every log entry against one instant `now`. The source calls `datetime.now()` once per dated log entry (cleanup.py:58, reached from 88-89), so the cutoff moves while the job runs. An entry whose date crosses the cutoff during the run can be judged differently by the source. `LogEntryDeletedIff` and the other plan lemmas hold for a clock frozen for the whole run.
- Cleanup.RunCleanup: has the same precondition as `CleanupForServer`, for the same reason.
- Cleanup.RunCleanup: evaluates the whole job at the one instant `now`, where the source reads the clock once per dated log entry across all servers (cleanup.py:58, 96-97). `JobPlanMembers` and the equation with `JobPlan` hold for that frozen clock.
- Cleanup.RunCleanup: takes one listing per server ID. A server configured more than once is assumed to list the same entries on every visit. The source lists again on every visit (cleanup.py:65, 75, 86), after the earlier visit's deletions, so its second visit would normally find fewer files. The model repeats the first visit's requests.
