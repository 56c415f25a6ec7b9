# Impersonation monitor — a Dafny model

This project models the core of an impersonation monitor. The monitor searches LinkedIn and Twitter for accounts matching configured keywords and posts an alert for every candidate it finds. It rebuilds a watch list of suspicious accounts from its account tables, and it lets an analyst classify a stored account (Unclassified, Whitelisted, Imposter, Unrelated, Disabled).

The model has seven modules, one per file:

- `wrappers.dfy` (`Wrappers`): `Option`, standing for Python's `None`.
- `py_strings.dfy` (`PyStrings`): the Python string operations the core relies on, with their laws. These are `in`, `find`, `split`, `join`, the `isalnum` filter and the decimal rendering of an `int`.
- `models.py` as `models.dfy` (`Models`):
  - the status labels and the account-type codes;
  - the candidate records of each platform with their defaults;
  - the stored account, which is a candidate record plus the columns the store adds;
  - the keyword and the watch-list entry.
- `linkedin_helpers.dfy` (`LinkedInHelpers`): `build_profile_url`, `grab_username_and_safe_url` (on the components `urlparse` returns) and `parse_title`.
- `stored_procedures.dfy` (`StoredProcedures`): the create statement for a LinkedIn account and the two last-seen statements, each with a read-back lemma.
- `repository.dfy` (`Repository`): the database as the monitor sees it. This is a `Database` class holding:
  - the two account tables, each a sequence of rows with distinct `account_id`s;
  - the watch-list table;
  - a log of the requests sent.

  Each account fetch, status write, clear and watch-list insert helper of `crud_helpers.py` is a method; the keyword fetches and the account upserts are not part of this model. Every write takes the outcome of its statement as a parameter: `true` where it commits, `false` where it raises and the helper returns None.
- `impersonation_monitor.dfy` (`ImpersonationMonitor`):
  - `source_account_to_impersonation_account`;
  - a `Monitor` class with the keyword set-up of the constructor and the methods `Scan`, `Update` and `Classify`.

  Each method is proved against specification functions:
  - `Rounds`, `ScanAlerts`, `TwitterFound` and `LinkedInFound` for the scan;
  - `Entries`, `Accepted` and `Inserts` for the rebuild;
  - `ClassifyDecision`, `ClassifyRequests` and `AfterClassify` for classification.

  Lemmas then state what the source promises about those functions.

The search agents are functions from a keyword string to the candidates found. `post_alert` appends to the `alerts` field.

The model follows what the code does where it differs from what the code itself announces:

- With no LinkedIn keywords, the constructor logs "LinkedIn Search Disabled - No Keywords to Search" (`impersonation_monitor.py:57-59`), so the scan is meant to go on over Twitter alone. But the empty list is left un-wrapped (the `iter` call at line 62 is only made for a non-empty list), and `next` on a plain list at line 89 raises after one Twitter keyword has been searched. `Monitor.Scan` models this with `completed == false` and the state at that point.
- With both keyword lists empty, the constructor raises (lines 63-67). `Monitor.constructor` requires at least one non-empty list.

The model also keeps three other behaviours of the code:

- `classify` accepts any integer id; there is no positivity check.
- A LinkedIn write goes to the stored row's `account_id`, a Twitter write to the id passed in.
- The counts `update` reports are of entries built, whether or not their inserts commit.

## Model

| member | source | states |
|---|---|---|
| Models.StatusLabel | shared_code/models.py:4-9 | The stored text of each status; `ParseStatus` and `StatusLabelRoundTrip` show each label names its status and no other |
| Models.ParseStatus | shared_code/models.py:4-9 | A text names a status exactly when it is one of the five labels; the status found has that label |
| Models.StatusLabelsExact | shared_code/models.py:4-9 | The labels are exactly five, pairwise distinct, one per status |
| Models.StatusLabelRoundTrip | shared_code/models.py:4-9 | Reading a status's label back gives the status |
| Models.PlatformOf | shared_code/models.py:70-72 | A code names a platform exactly when it is 1 or 2, and that platform's code is the code |
| Models.AccountTypesDistinct | shared_code/models.py:70-72 | LinkedIn is 1, Twitter is 2, no two platforms share a code, and the code maps back to its platform |
| Models.LinkedInAccountInDefaults | shared_code/models.py:12-18 | Company and job title default to None, keyword id to 0; given fields are kept |
| Models.TwitterAccountInDefaults | shared_code/models.py:20-30 | Created-at and the three counts default to None, keyword id to 0 |
| PyStrings.FindFirst | shared_code/linkedin_helpers.py:25 | The index found is an occurrence with none before it; None means no occurrence anywhere |
| PyStrings.Split | shared_code/linkedin_helpers.py:29-31 | `str.split` with a non-empty separator, always at least one piece; `SplitJoin` and `SplitPiecesFree` show the pieces are the separator-free stretches between its occurrences |
| PyStrings.SplitJoin | shared_code/linkedin_helpers.py:29 | Joining the pieces of a split with the separator gives back the text |
| PyStrings.SplitPiecesFree | shared_code/linkedin_helpers.py:29-31 | No piece of a split holds the separator; there are two or more pieces exactly when it occurs |
| PyStrings.SplitJoinedByChar | shared_code/stored_procedures.py:5 | Splitting at a character the pieces lack undoes joining them with it |
| PyStrings.KeepAlnum | shared_code/stored_procedures.py:8 | The `isalnum` filter; `KeepAlnumContents`, `KeepAlnumAppend` and `KeepAlnumIdempotent` show it keeps exactly the alphanumerics, in order |
| PyStrings.KeepAlnumContents | shared_code/stored_procedures.py:8 | The filter keeps only alphanumerics, and each alphanumeric as often as the input has it |
| PyStrings.KeepAlnumAppend | shared_code/stored_procedures.py:8 | The filter keeps order: it distributes over concatenation |
| PyStrings.KeepAlnumOfAlnum | shared_code/linkedin_helpers.py:36 | An alphanumeric text passes the filter unchanged |
| PyStrings.KeepAlnumIdempotent | shared_code/stored_procedures.py:8 | Filtering twice is filtering once |
| PyStrings.IntToDecimal | shared_code/stored_procedures.py:16 | `str()` of an int: a minus sign for a negative number, then its decimal digits; `NatToDecimalRoundTrip` shows the digits read back as the number |
| PyStrings.NatToDecimalRoundTrip | shared_code/stored_procedures.py:16 | The decimal text of a natural is non-empty, all digits, and reads back as the number |
| LinkedInHelpers.BuildProfileUrl | shared_code/linkedin_helpers.py:11-12 | The profile URL of a username with a trailing slash; `BuildThenGrab` shows grabbing from it gives back an alphanumeric username |
| LinkedInHelpers.Unparse | shared_code/linkedin_helpers.py:35 | `geturl()` of components with a network location: scheme, `//`, location, path and the non-empty params, query and fragment; `SafeProfileUrl` shows the safe URL it gives |
| LinkedInHelpers.ProfileSegment | shared_code/linkedin_helpers.py:29-31 | The segment is the text right after the first "/in/" of the path, up to the next "/" or the end, and holds no "/" |
| LinkedInHelpers.GrabUsernameAndSafeUrl | shared_code/linkedin_helpers.py:14-36 | None exactly when the URL is None or empty, its location lacks "linkedin.com" or its path lacks "/in/"; else the username is the alphanumeric part of the segment, and the URL keeps scheme and location with path "/in/" plus the unfiltered segment and no params, query or fragment |
| LinkedInHelpers.ProfileSegmentOfBuilt | shared_code/linkedin_helpers.py:29-31 | The segment of "/in/u/" is u when u has no "/" |
| LinkedInHelpers.BuildThenGrab | shared_code/linkedin_helpers.py:11-36 | For an alphanumeric u, grabbing from the built profile URL gives u and the URL without its trailing slash |
| LinkedInHelpers.SafeProfileUrl | shared_code/linkedin_helpers.py:35 | Rebuilding https, www.linkedin.com and "/in/u" with nothing else gives "https://www.linkedin.com/in/u" |
| LinkedInHelpers.TrimTitle | shared_code/linkedin_helpers.py:78-81 | The title cut at its first "\|", then at the first "..."; `TrimTitleCuts` states the exact cut |
| LinkedInHelpers.TitleSections | shared_code/linkedin_helpers.py:82-85 | The separator is " – " when the title holds an en dash anywhere, else " - "; the sections are at least one, joined with that separator give back the title, and none holds it |
| LinkedInHelpers.ParseTitle | shared_code/linkedin_helpers.py:71-102 | None for a missing or empty title; otherwise a result exactly when the trimmed title has 2 or 3 sections, with the name alone for 2, and name, job and company in order for 3 |
| LinkedInHelpers.TrimTitleCuts | shared_code/linkedin_helpers.py:78-81 | Trimming cuts exactly at the first "\|" if there is one, then at the first "..." of what is left; the result is a prefix with neither, and a title without either is unchanged |
| LinkedInHelpers.PlainTitleUntouched | shared_code/linkedin_helpers.py:78-85 | A title without "\|", "." or an en dash is not trimmed and is split at " - " |
| LinkedInHelpers.ParseThreeSectionTitle | shared_code/linkedin_helpers.py:95-98 | "name - job - company" with plain fields parses into those three fields |
| LinkedInHelpers.ParseTwoSectionTitle | shared_code/linkedin_helpers.py:92-94 | "name - location" gives the name alone, no job and no company |
| LinkedInHelpers.EnDashTitleUntouched | shared_code/linkedin_helpers.py:78-83 | A title with an en dash and no "\|" or "." is not trimmed and is split at " – " |
| LinkedInHelpers.EnDashWinsOverHyphen | shared_code/linkedin_helpers.py:82-94 | An en dash anywhere makes " – " the only separator: "a - b – c" has the two sections "a - b" and "c" and gives the name "a - b" alone |
| LinkedInHelpers.ParseEnDashThreeSectionTitle | shared_code/linkedin_helpers.py:82-98 | "name – job – company" with plain fields parses into those three fields |
| LinkedInHelpers.ParseIgnoresAfterBar | shared_code/linkedin_helpers.py:78-79 | Whatever follows the first "\|" does not change the parse |
| StoredProcedures.PyStr | shared_code/stored_procedures.py:5 | An f-string renders a missing company or job title as "None" |
| StoredProcedures.CreateLinkedInAccountProcedure | shared_code/stored_procedures.py:4-5 | The create statement: the five fields in double quotes after their parameter names; `CreateLinkedInReadBack` shows when the fields can be read back out of it |
| StoredProcedures.CreateLinkedInPieces | shared_code/stored_procedures.py:4-5 | The pieces between quotes are eleven, with full name, username, company, job title and URL at the odd places in that order |
| StoredProcedures.CreateLinkedInSplits | shared_code/stored_procedures.py:4-5 | With quote-free fields, splitting the create statement at double quotes gives exactly those pieces |
| StoredProcedures.CreateLinkedInReadBack | shared_code/stored_procedures.py:4-5 | The statement splits into those pieces if and only if no field holds a double quote |
| StoredProcedures.UpdateLinkedInLastSeenProcedure | shared_code/stored_procedures.py:7-9 | The last-seen statement with the filtered username in double quotes; `LinkedInLastSeenReadBack` shows it always reads back to that username |
| StoredProcedures.LinkedInLastSeenReadBack | shared_code/stored_procedures.py:7-9 | The statement is the fixed head, then in double quotes exactly the alphanumerics of the username in order, whatever it holds |
| StoredProcedures.LinkedInLastSeenIdempotent | shared_code/stored_procedures.py:8 | A username and its stripped form give the same statement |
| StoredProcedures.UpdateTwitterLastSeenProcedure | shared_code/stored_procedures.py:15-16 | The last-seen statement with the id in decimal in single quotes; `TwitterLastSeenReadBack` and `TwitterLastSeenInjective` show the id reads back and no two ids share a statement |
| StoredProcedures.TwitterLastSeenReadBack | shared_code/stored_procedures.py:15-16 | The statement is the fixed head, then the id in single quotes as a decimal that reads back as the id, signed when negative |
| StoredProcedures.TwitterLastSeenInjective | shared_code/stored_procedures.py:15-16 | Different ids give different statements |
| Repository.RowByIdFrom | shared_code/queries.py:3-4 | The row found from a position has the id, and None means no row from there on has it |
| Repository.RowById | shared_code/crud_helpers.py:50-67 | The fetch by id finds a row of the table with that id, or None exactly when no row has it |
| Repository.RowByIdFindsRow | shared_code/crud_helpers.py:91-107 | With distinct ids, fetching a row's id gives that row |
| Repository.Watched | shared_code/queries.py:17-18 | The watch-list query selects no more rows than the table has |
| Repository.WatchedMembers | shared_code/queries.py:17-18 | A row is selected exactly when it is in the table with status Unclassified or Imposter |
| Repository.WatchedDistinct | shared_code/queries.py:17-18 | The selected rows keep the primary key |
| Repository.SetStatus | shared_code/queries.py:8-9 | The status update sets status and report count on the rows with the id and leaves every other row as it was |
| Repository.SetStatusKeepsIds | shared_code/queries.py:8-9 | The status update keeps every row's id, so it keeps the primary key |
| Repository.SetStatusTarget | shared_code/queries.py:8-9 | After the update, the row with the id is the old row with the new status and count |
| Repository.SetStatusOthers | shared_code/queries.py:8-9 | The row of every other id is unchanged |
| Repository.FilterWatched | shared_code/crud_helpers.py:69-78 | The rows collected from the query are the selected rows, in order |
| Repository.Database.FetchLinkedInAccountById | shared_code/crud_helpers.py:50-67 | Returns the LinkedIn row with the id or None, and logs the read |
| Repository.Database.FetchTwitterAccountById | shared_code/crud_helpers.py:91-107 | Returns the Twitter row with the id or None, and logs the read |
| Repository.Database.UpdateLinkedInAccountStatus | shared_code/crud_helpers.py:207-223 | True exactly when the statement commits, which applies the status update; logs the write; keeps the primary keys |
| Repository.Database.UpdateTwitterAccountStatus | shared_code/crud_helpers.py:225-240 | The same for the Twitter table |
| Repository.Database.ClearImpersonationAccountsTable | shared_code/crud_helpers.py:169-183 | True and an empty watch list exactly when the delete commits; logs the request |
| Repository.Database.CreateImpersonationAccount | shared_code/crud_helpers.py:149-167 | True and the entry appended exactly when the insert commits; logs the request |
| Repository.Database.FetchLinkedInImpersonationAccounts | shared_code/crud_helpers.py:69-78 | Returns the watched LinkedIn rows in table order; logs the read |
| Repository.Database.FetchTwitterImpersonationAccounts | shared_code/crud_helpers.py:80-89 | Returns the watched Twitter rows in table order; logs the read |
| ImpersonationMonitor.SourceAccountToImpersonationAccount | shared_code/impersonation_monitor.py:11-25 | None exactly for a value of another type; a LinkedIn row gets type 1 and a Twitter row type 2, with `account_id` as source id and name, username, reports and URL copied |
| ImpersonationMonitor.EntryLocatesSource | shared_code/impersonation_monitor.py:11-25 | With distinct ids, an entry's type names its row's platform, and its source id fetches that row |
| ImpersonationMonitor.Entries | shared_code/impersonation_monitor.py:109-115 | There are no more entries than rows |
| ImpersonationMonitor.EntriesAllConvert | shared_code/impersonation_monitor.py:109-115 | When every row converts, entry i is the conversion of row i |
| ImpersonationMonitor.Accepted | shared_code/crud_helpers.py:149-167 | The table after the inserts holds no more entries than were inserted |
| ImpersonationMonitor.AcceptedMembers | shared_code/impersonation_monitor.py:114 | An entry ends up in the table exactly when it was inserted and its insert committed |
| ImpersonationMonitor.Inserts | shared_code/impersonation_monitor.py:114 | One insert request per entry, entry i in request i |
| ImpersonationMonitor.WatchedEntries | shared_code/impersonation_monitor.py:109-123 | One entry per watched row, and an entry is there exactly when a watched row converts to it |
| ImpersonationMonitor.RebuiltEntries | shared_code/impersonation_monitor.py:107-124 | For both platforms, one entry per watched row, an entry is there exactly when made from a watched row, and the count is the number of such rows |
| ImpersonationMonitor.Step | shared_code/impersonation_monitor.py:82 | `next` yields one keyword from a non-empty list and none from an empty one |
| ImpersonationMonitor.Rest | shared_code/impersonation_monitor.py:82 | `next` consumes one keyword from a non-empty list |
| ImpersonationMonitor.Rounds | shared_code/impersonation_monitor.py:79-95 | A full scan makes m + n searches |
| ImpersonationMonitor.RoundsVisitTwitterOnce | shared_code/impersonation_monitor.py:82-88 | The Twitter searches of a scan are the Twitter keywords, each once, in list order |
| ImpersonationMonitor.RoundsVisitLinkedInOnce | shared_code/impersonation_monitor.py:89-95 | The LinkedIn searches of a scan are the LinkedIn keywords, each once, in list order |
| ImpersonationMonitor.RoundsOneSided | shared_code/impersonation_monitor.py:81-95 | With one list empty, the scan searches the other in order |
| ImpersonationMonitor.RoundsInterleave | shared_code/impersonation_monitor.py:81-95 | While both lists last, search 2i is Twitter keyword i and search 2i+1 is LinkedIn keyword i |
| ImpersonationMonitor.RoundsLeftover | shared_code/impersonation_monitor.py:81-95 | After the shorter list (length m) runs out, keyword j of the longer one is search m + j |
| ImpersonationMonitor.TwitterAlerts | shared_code/impersonation_monitor.py:84-88 | One alert per Twitter candidate |
| ImpersonationMonitor.TwitterAlertsAt | shared_code/impersonation_monitor.py:84-86 | Alert i is candidate i stamped with the keyword id, under "TwitterAccounts" |
| ImpersonationMonitor.LinkedInAlerts | shared_code/impersonation_monitor.py:91-95 | One alert per LinkedIn candidate |
| ImpersonationMonitor.LinkedInAlertsAt | shared_code/impersonation_monitor.py:91-93 | Alert i is candidate i stamped with the keyword id, under "LinkedInAccounts" |
| ImpersonationMonitor.AlertsCounted | shared_code/impersonation_monitor.py:84-95 | The alerts under each log type number the candidates that platform's searches found |
| ImpersonationMonitor.AlertsStamped | shared_code/impersonation_monitor.py:84-95 | Every alert is a candidate some search returned, stamped with that search's keyword id, under its platform's log type |
| ImpersonationMonitor.ScanAlertsAppend | shared_code/impersonation_monitor.py:81-95 | The alerts of two stretches of searches are the alerts of the first, then those of the second |
| ImpersonationMonitor.FoundAppend | shared_code/impersonation_monitor.py:81-95 | The candidates found by two stretches of searches add up, per platform |
| ImpersonationMonitor.GuardFetched | shared_code/impersonation_monitor.py:141-152 | A write exactly for a found account that is neither Whitelisted nor Disabled, with the new label and one more report exactly for "Imposter" |
| ImpersonationMonitor.ClassifyDecision | shared_code/impersonation_monitor.py:127-164 | A write only for an integer id, a known label and type 1 or 2, on that type's platform with the new label |
| ImpersonationMonitor.ClassifyRequests | shared_code/impersonation_monitor.py:134-164 | The requests `classify` sends: none when a first guard refuses, else the fetch, then the write when the later guards pass; `ClassifyGuardOrder` and `ClassifyRefusesProtected` state the cases |
| ImpersonationMonitor.AfterClassify | shared_code/impersonation_monitor.py:150-164 | The tables after one call: the decided write applied when it commits, else unchanged; `ClassifyWriteEffect` states its effect row by row |
| ImpersonationMonitor.ClassifyWritesUnprotected | shared_code/impersonation_monitor.py:134-164 | With an integer id, a known label and type 1 or 2, a write is decided exactly when the account is found and is neither whitelisted nor disabled, to that account with the new label and its report count |
| ImpersonationMonitor.ClassifyGuardOrder | shared_code/impersonation_monitor.py:128-140 | A non-integer id, then an unknown label, then an unknown type, each refuse the call before any request |
| ImpersonationMonitor.ClassifyRefusesProtected | shared_code/impersonation_monitor.py:141-149 | An absent, Whitelisted or Disabled account is refused whatever the new label, and only the fetch is sent |
| ImpersonationMonitor.GuardedWriteEffect | shared_code/impersonation_monitor.py:150-164 | The decided write gives the account the new label and report count and keeps every other row and the primary key |
| ImpersonationMonitor.ClassifyWriteEffect | shared_code/impersonation_monitor.py:150-164 | A committed write sets the label, adds one report exactly for "Imposter", and changes no other account and not the other table; anything else changes nothing |
| ImpersonationMonitor.ClassifyKeepsProtected | shared_code/impersonation_monitor.py:144-149 | One call leaves a Whitelisted or Disabled account as it was |
| ImpersonationMonitor.ProtectedAccountsStay | shared_code/impersonation_monitor.py:144-149 | Any sequence of calls, with any outcomes, leaves a Whitelisted or Disabled account as it was |
| ImpersonationMonitor.Monitor.constructor | shared_code/impersonation_monitor.py:44-73 | Search flags and counts per platform, both lists as iterators except an empty LinkedIn list kept as a list, zero counters and no alerts |
| ImpersonationMonitor.Monitor.SearchTwitter | shared_code/impersonation_monitor.py:84-88 | Posts the stamped alerts of one Twitter search and counts its candidates |
| ImpersonationMonitor.Monitor.SearchLinkedIn | shared_code/impersonation_monitor.py:91-95 | Posts the stamped alerts of one LinkedIn search and counts its candidates |
| ImpersonationMonitor.Monitor.TwitterTurn | shared_code/impersonation_monitor.py:82-88 | Takes the next Twitter keyword, if any, and searches it |
| ImpersonationMonitor.Monitor.LinkedInTurn | shared_code/impersonation_monitor.py:89-95 | Takes the next LinkedIn keyword, if any, and searches it |
| ImpersonationMonitor.Monitor.Round | shared_code/impersonation_monitor.py:82-95 | One pass of the loop body: the Twitter turn; then the LinkedIn turn, or the raise on a plain list |
| ImpersonationMonitor.Monitor.Scan | shared_code/impersonation_monitor.py:76-98 | Touches no table; on iterators it makes the searches `Rounds` lists, posting their alerts and adding their candidates to each counter; on a plain LinkedIn list it stops after the first Twitter search |
| ImpersonationMonitor.Monitor.InsertEntries | shared_code/impersonation_monitor.py:109-115 | Sends one insert per convertible row in order, skips the rest, counts the entries, and the table gains the committed ones |
| ImpersonationMonitor.Monitor.Update | shared_code/impersonation_monitor.py:100-125 | A failed clear stops everything after it. Otherwise the watch list ends as the committed LinkedIn entries, then the committed Twitter ones; the counts are the entries built; the requests are clear, LinkedIn fetch and inserts, then Twitter fetch and inserts |
| ImpersonationMonitor.Monitor.ClassifyLinkedIn | shared_code/impersonation_monitor.py:141-158 | Fetches the LinkedIn row, applies the post-fetch guards, and writes under the row's own id, keeping the primary keys |
| ImpersonationMonitor.Monitor.ClassifyTwitter | shared_code/impersonation_monitor.py:141-164 | Fetches the Twitter row, applies the post-fetch guards, and writes under the id passed in, keeping the primary keys |
| ImpersonationMonitor.Monitor.Classify | shared_code/impersonation_monitor.py:127-167 | True exactly when the guards pass and the write commits; the tables change as `AfterClassify` says; the requests sent are exactly `ClassifyRequests`; the primary keys are kept |

## Left out

- Logging: every `logging` call and message is left out; it affects nothing the model states.
- The database connection (`connect_to_db`, its retries and sleeps), the connection-string lookup and the constructor's two raises on them are left out: they are I/O. The constructor starts from keyword lists already fetched.
- `fetch_twitter_keywords` and `fetch_linkedin_keywords` are left out: the constructor takes their results as parameters.
- `LinkedInAgent` and the Twitter client (`twitter_helpers.py`) are functions from keyword string to candidates. They drive a browser and a web API, and what they return is not under the monitor's control.
- `post_alert` signs and posts over HTTP. It is modelled as appending the alert to a list of records, not their JSON text.
- Exceptions raised by an agent or by `post_alert` in the middle of a scan are left out. So are exceptions from the fetch helpers, which, unlike the writes, catch nothing.
- Concurrent `classify` calls and the scheduled run are left out: concurrency is outside the model.
- The stored procedures `UpdateLinkedInAccountStatus`, `UpdateTwitterAccountStatus` and `CreateImpersonationAccount` are not part of the repository. They are modelled by their effect: setting status and report count on the row with the id, and appending the entry to the watch list.
- The row order of a `SELECT *` without `ORDER BY` is unspecified. The model returns rows in table order.
- `grab_details_from_title` is left out: it reads environment variables and is never called.
- `parse_account_data_to_account` is left out: it reads a browser element.
- `create_twitter_account_procedure` is left out: it depends on Python's `str` of booleans, None and datetimes.
- `HttpTrigger`, `TimeTrigger` and `sandbox.py` are left out: entry points and a scratch script that call into the core.
- Timestamps are opaque values: the core only copies them.
- PyStrings.IsAlnum: covers ASCII letters and digits only. Python's `isalnum` also accepts other Unicode letters and digits.
- `Classify` takes the account id as an integer or "not an integer". Python's `bool`, which is an `int`, counts as an integer there and is not separated out.
- The `ValidationError` branch of the conversion (`impersonation_monitor.py:23-25`) is not modelled: a stored row always has the fields the entry needs.
- The final `else` of `classify` (lines 165-167) is not modelled: by then the account type is 1 or 2.
- The `if not sections` branch of `parse_title` is not modelled: a split never yields an empty list.
- The bare `except` of `grab_username_and_safe_url` is not modelled: once "/in/" occurs, the split always has a second piece.
- LinkedInHelpers.Unparse: models `geturl()` only for a URL with a network location. That is the only case `grab_username_and_safe_url` reaches, since the location must contain "linkedin.com".
- The create and last-seen statements embed text without escaping. The model proves which inputs still read back (`CreateLinkedInReadBack`) and does not model how a SQL server would parse the others.
