# AIPortal handler logic in Dafny

AIPortal is a web portal. Its FastAPI backend serves search, dashboard statistics, settings and file endpoints. A browser service keeps a user's recently opened and favourite tools. This project models the logic those handlers run in memory and proves what it promises. It does not model the database queries that feed them.

The modules are:

- `Search` (`search.dfy`): the global search endpoint and the suggestions endpoint.
  - Tiered relevance scoring: exact, then prefix, then substring, then word overlap, with the sum capped at 1.
  - Per-category caps and the 0.9 and 0.8 chat weights.
  - The stable descending sort by score, with `total` counted before truncation.
  - The suggestion merge.
  - `format_file_size` unit selection and `truncate_text`.
- `Dashboard` (`dashboard.dfy`):
  - The zero-guarded conversion rate.
  - The recent-activity list.
  - The per-type activity breakdown.
  - The most active day: the first day, in the order days were first met, with the largest count.
  - The `days` check and the daily series of the trends endpoint.
- `ToolService` (`tool_service.dfy`): the two `localStorage` lists as the fields of a `ToolStore` class.
  - Most-recently-used list: deduplicate by name, move to front, keep ten.
  - Favourites toggle.
  - `isFavorite`, `clearRecentTools` and `formatTime`.
- `Config` (`config.dfy`):
  - `parse_env_list`: a JSON array, or comma-separated items each stripped.
  - `get_env` with its casts.
  - The two upload settings the file endpoints read.
- `Settings` (`settings.dfy`):
  - The system-settings table: upsert, delete and the public projection.
  - The user-settings table: defaults on first read, and an attribute-wise update that can also rewrite `user_id` and so move the record to another user.
- `Files` (`files.dfy`):
  - Extension extraction, and upload validation (size first, then type).
  - The stored file name.
  - The `files` table with its download counter and share flag.
- Support modules:
  - `Strings`: ASCII case mapping, `startswith`, `in`, `split()`, `split(sep)`/`join` and `strip()`.
  - `Tally`: counting into a dict that keeps first-seen key order, and the first maximum that Python's `max` picks.
  - `Wrappers`: `Option` and `Result`.
  - `Http`: the status codes the handlers raise.

Modelling conventions:

- Database reads are inputs: each sequence holds the rows the query's SQL filter matched, in the order the database returned them. Where a handler applies `.limit(n)` to a query, that cap is modelled.
- Tables that handlers update become maps held in classes.
- `datetime.utcnow()` and `Date.now()` are the parameter `now`.
- Backend timestamps are whole seconds, and a date is `ts / 86400`. Front-end timestamps are milliseconds.
- Scores and sizes are `real`.
- Which paths exist on disk is a parameter set. The uuid prefix of stored names is a parameter. The JSON decoder of `parse_env_list` is a parameter function that fails with `None`.

Where the code and its documentation differ, the model follows the code:

- The trends window runs from `now - days·86400` to `now`, both ends included. It can therefore touch `days + 1` calendar dates, and the model's period runs from `DayOf(start)` to `DayOf(now)`.
- `conversion_rate` divides users with any activity in the last seven days by the count of active users. These are two different populations, so the rate can exceed 100. `ConversionRateIsPercentage` bounds it only when the active users are among those counted.
- `update_user_settings` sets every attribute the record has, `user_id` included. A request that sets `user_id` to an id without settings moves the record to that user; one that names an id that already has settings fails on the unique constraint. The model keeps both outcomes.
- `update_system_setting` takes `is_public: bool = False`. The `is not None` guard therefore always holds, and visibility is always overwritten, with `False` when it is omitted.

## Model

| member | source | states |
|---|---|---|
| Strings.Lower | backend/app/api/search.py:138 | `lower()` maps every ASCII capital to its small letter, keeps every other character, and keeps the length |
| Strings.Upper | backend/app/api/search.py:63 | `upper()` maps every ASCII small letter to its capital and keeps the length |
| Strings.Words | backend/app/api/search.py:158-159 | every word `split()` yields is non-empty and free of whitespace (ASCII whitespace, including U+001C to U+001F) |
| Strings.WordsSkipSpace | backend/app/api/search.py:158-159 | leading whitespace produces no word |
| Strings.WordsOfWord | backend/app/api/search.py:158-159 | a word followed by whitespace or the end of the text is split off whole |
| Strings.WordsOfSpaced | backend/app/api/search.py:158-159 | words separated by non-empty whitespace, with any whitespace before and after, split back into exactly those words in order: the words are the maximal non-whitespace runs |
| Strings.Split | backend/app/core/config.py:21 | `split(',')` yields one more piece than there are separators, none containing the separator |
| Strings.JoinSplit | backend/app/core/config.py:21 | joining the pieces of `split(sep)` with `sep` gives back the text |
| Strings.LastPieceIsTail | backend/app/api/files.py:35 | `split('.')[-1]` is the text after the last '.', or the whole text when there is no '.' |
| Strings.TrimStart | backend/app/core/config.py:21 | `lstrip()` drops exactly the leading whitespace |
| Strings.TrimEnd | backend/app/core/config.py:21 | `rstrip()` drops exactly the trailing whitespace |
| Strings.StripIsMiddle | backend/app/core/config.py:21 | `strip()` is the middle of the text left once the leading and the trailing whitespace are dropped; it neither starts nor ends with whitespace |
| Strings.StripKeepsOut | backend/app/core/config.py:21 | stripping adds no character: a character absent from the text is absent from its strip |
| Strings.StripPadded | backend/app/core/config.py:21 | `strip()` removes exactly the whitespace around a text whose ends are not whitespace |
| Strings.StripWithoutSpace | backend/app/core/config.py:21 | a string without whitespace is its own strip |
| Tally.Occurrences | backend/app/api/dashboard.py:133-136 | a count is positive exactly for elements present, and at most the length |
| Tally.DistinctMeaning | backend/app/api/dashboard.py:98-103 | the dict's keys: exactly the elements, each once |
| Tally.CountsMeaning | backend/app/api/dashboard.py:133-136 | filling `d[k] = d.get(k, 0) + 1` gives one key per distinct element, holding its number of occurrences |
| Tally.CountsStep | backend/app/api/dashboard.py:133-136 | one more element bumps its count (a new key starts at 1 and is appended to the key order) |
| Tally.FirstIndex | backend/app/api/dashboard.py:138 | the first position holding an element |
| Tally.CountsAddUp | backend/app/api/dashboard.py:116 | the counts of the distinct keys add up to the number of elements |
| Tally.DistinctInFirstSeenOrder | backend/app/api/dashboard.py:133-138 | dict keys come in order of first occurrence |
| Tally.FirstMaxIndex | backend/app/api/dashboard.py:138 | `max` picks a largest value, and every earlier value is strictly smaller |
| Search.MatchingWords | backend/app/api/search.py:160 | the number of query positions whose word is among the field's words, so a repeated query word counts each time; positive exactly when some query word matches; at most the number of query words |
| Search.WordOverlap | backend/app/api/search.py:157-162 | the overlap tier adds between 0 and 0.4, positive exactly when some query word matches, with no division by zero |
| Search.FieldScore | backend/app/api/search.py:147-162 | a non-blank field adds between 0 and 1, and exactly 1 when it equals the query up to case |
| Search.FieldsTotal | backend/app/api/search.py:139-162 | the running total is never negative |
| Search.Relevance | backend/app/api/search.py:164 | the capped score lies in [0, 1] |
| Search.CalculateRelevanceScore | backend/app/api/search.py:136-164 | the loop over fields returns the capped sum of per-field tier scores, in [0, 1] |
| Search.ScoreByTier | backend/app/api/search.py:147-162 | only the first matching tier applies: exact 1.0, prefix 0.8, substring 0.6, overlap in (0, 0.4], otherwise 0 |
| Search.FullScoreIffEqual | backend/app/api/search.py:148-149 | a field adds 1.0 exactly when it equals the query up to case |
| Search.BlankFieldsScoreZero | backend/app/api/search.py:141-143 | when every field is None or empty, the score is 0 |
| Search.TotalIsSumOfFields | backend/app/api/search.py:141-162 | contributions of several fields add up before the cap |
| Search.ScaleFrom | backend/app/api/search.py:175-177 | the loop divides by 1024 until under 1024 or at "TB"; amount × 1024^steps gives back the size |
| Search.SizeLabelProperties | backend/app/api/search.py:168-179 | "0 B" exactly for 0; never beyond "TB"; below 1024 unless "TB" |
| Search.FormatFileSize | backend/app/api/search.py:166-179 | the while loop selects the unit that `SizeLabelOf` specifies |
| Search.SizeLabelOf | backend/app/api/search.py:166-179 | "0 B" exactly for 0; otherwise a unit up to "TB" whose amount is under 1024 unless the unit is "TB", and amount × 1024^unit gives back the size |
| Search.TruncateText | backend/app/api/search.py:181-185 | text at most `max` long is unchanged; otherwise the first `max` characters plus "...", length max+3 |
| Search.ToolEntries | backend/app/api/search.py:34-47 | one tool result per row, in row order: result i is `ToolEntry` of row i |
| Search.ToolEntriesScored | backend/app/api/search.py:34-47 | every tool result is of kind "tool" and scores in [0, 1] |
| Search.FileEntries | backend/app/api/search.py:58-72 | one file result per row, in row order: result i is `FileEntry` of row i |
| Search.FileEntriesScored | backend/app/api/search.py:58-72 | every file result is of kind "file" and scores in [0, 1] |
| Search.SessionEntries | backend/app/api/search.py:85-97 | one chat result per session row, in row order: result i is `SessionEntry` of row i |
| Search.SessionEntriesScored | backend/app/api/search.py:85-97 | session results are weighted by 0.9, so they score in [0, 0.9] |
| Search.MessageEntries | backend/app/api/search.py:108-121 | one chat result per message row, in row order: result i is `MessageEntry` of row i |
| Search.MessageEntriesScored | backend/app/api/search.py:108-121 | message results are weighted by 0.8, so they score in [0, 0.8] |
| Search.Take | backend/app/api/search.py:132 | `xs[:n]` is the prefix of length min(n, len) |
| Search.InsertByScore | backend/app/api/search.py:124 | inserting into the sorted list adds exactly one element |
| Search.SortByScore | backend/app/api/search.py:124 | the sort keeps the number of results |
| Search.SortByScoreIsStableSort | backend/app/api/search.py:124 | the sort is descending by score, a permutation, and keeps equal-score results in insertion order |
| Search.InsertKeepsSorted | backend/app/api/search.py:124 | one insertion step keeps the list sorted by descending score |
| Search.InsertKeepsElements | backend/app/api/search.py:124 | one insertion step adds exactly the inserted result and loses none |
| Search.InsertKeepsTies | backend/app/api/search.py:124 | one insertion step puts a new result after all earlier results of equal score |
| Search.AppendToolResults | backend/app/api/search.py:34-47 | the tool loop appends exactly `ToolEntries` |
| Search.AppendFileResults | backend/app/api/search.py:58-72 | the file loop appends exactly `FileEntries` |
| Search.AppendSessionResults | backend/app/api/search.py:85-97 | the session loop appends exactly `SessionEntries` |
| Search.AppendMessageResults | backend/app/api/search.py:108-121 | the message loop appends exactly `MessageEntries` |
| Search.Collected | backend/app/api/search.py:21-121 | at most one result per fetched row; any search type other than all, tools, files and chats collects nothing |
| Search.Search | backend/app/api/search.py:12-134 | `total` is the count before truncation; the page is the first `limit` results of the sorted collected results |
| Search.CollectedScoresBounded | backend/app/api/search.py:41-115 | every result scores in [0, 1]; chat sessions at most 0.9, chat messages at most 0.8 |
| Search.CategoryCaps | backend/app/api/search.py:23-106 | in "all" mode the parts hold at most limit//2 tools, limit//3 files, limit//4 sessions and limit//4 messages |
| Search.SingleCategoryLimits | backend/app/api/search.py:23-106 | "tools" or "files" collects only that category, up to the full limit; "chats" collects no tools or files and at most limit sessions and limit messages |
| Search.UnknownTypeFindsNothing | backend/app/api/search.py:23-74 | any other search type (e.g. "users") collects nothing |
| Search.PageProperties | backend/app/api/search.py:124-132 | the page holds min(limit, total) results, sorted, drawn from the results, and all of them when total ≤ limit |
| Search.SuggestionsOf | backend/app/api/search.py:206-240 | one suggestion per name, in order, with the source's type and category |
| Search.AppendSuggestions | backend/app/api/search.py:206-240 | each append loop adds one suggestion per name, in order, after those already collected |
| Search.Suggestions | backend/app/api/search.py:187-245 | none for q shorter than 2; at most 10 and no more than the names fetched |
| Search.GetSearchSuggestions | backend/app/api/search.py:187-245 | the three append loops and the final `[:10]` produce `Suggestions`; at most 10 |
| Search.SuggestionsShape | backend/app/api/search.py:194-244 | none for q shorter than 2; at most 10 and at most 5 per source; tools before files before chats; each text comes from its own source |
| Dashboard.ConversionRate | backend/app/api/dashboard.py:40 | 0 when there are no users; otherwise rate × total = active × 100 |
| Dashboard.ConversionRateIsPercentage | backend/app/api/dashboard.py:40 | when active ≤ total, the rate lies in [0, 100], and is 100 when they are equal |
| Dashboard.DayOf | backend/app/api/dashboard.py:135 | the date of a timestamp is the day that contains it: date·86400 ≤ ts < (date+1)·86400 |
| Dashboard.RecentActivities | backend/app/api/dashboard.py:54-66 | at most 10 entries, the first rows in order, each with id, user_id, type, data and created_at; newest-first order is kept |
| Dashboard.ActivityBreakdown | backend/app/api/dashboard.py:98-103 | the loop builds the type → count dict `Counts` |
| Dashboard.BreakdownAddsUp | backend/app/api/dashboard.py:98-116 | one key per distinct type, each holding its count; the counts sum to total_activities |
| Dashboard.BusiestDay | backend/app/api/dashboard.py:130-131 | None exactly for no activities |
| Dashboard.MostActiveDay | backend/app/api/dashboard.py:128-139 | the loop and `max` give `BusiestDay` of the activity dates; None exactly for an empty list |
| Dashboard.BusiestDayIsFirstMaximum | backend/app/api/dashboard.py:133-138 | the day occurs in the input and has the largest count; among tied days it is the one met first |
| Dashboard.WindowDays | backend/app/api/dashboard.py:181-196 | each date occurs once per record with start ≤ ts ≤ end on that date, and every such record's date occurs |
| Dashboard.LoginStamps | backend/app/api/dashboard.py:183 | only login activities count as visits: each time occurs once per login activity created at it |
| Dashboard.Buckets | backend/app/api/dashboard.py:177-201 | `GROUP BY date ORDER BY date`: strictly ascending dates, each with its positive record count |
| Dashboard.BucketsCoverEveryDay | backend/app/api/dashboard.py:177-201 | every date in range that has records has its entry |
| Dashboard.DailySeries | backend/app/api/dashboard.py:177-201 | the grouped query: ascending dates within the window's first and last date, each with the positive number of in-window records on it, and every in-window record's date listed |
| Dashboard.GetTrends | backend/app/api/dashboard.py:167-205 | 400 exactly when days < 1 or days > 365; otherwise the login visits and the tool usages as daily series over [now - days, now] |
| Dashboard.TrendsPeriod | backend/app/api/dashboard.py:173-206 | the period runs from the date `days` days before the end date to the end date |
| ToolService.WithoutName | frontend/src/services/toolService.js:52 | the filter keeps exactly the entries with another name |
| ToolService.WithoutNameConcat | frontend/src/services/toolService.js:52 | the filter keeps relative order (it works piecewise) |
| ToolService.Recorded | frontend/src/services/toolService.js:52-58 | the new list is non-empty, holds at most 10 entries, and starts with the accessed tool |
| ToolService.RecordedShape | frontend/src/services/toolService.js:52-58 | the tool is at index 0; at most 10 entries; no other entry has its name; the rest are the older ones in order |
| ToolService.RecordedKeepsNamesUnique | frontend/src/services/toolService.js:52-58 | recording keeps names unique |
| ToolService.FindIndex | frontend/src/services/toolService.js:72 | `findIndex`: the first position with the name, or -1 when none has it |
| ToolService.Toggled | frontend/src/services/toolService.js:72-85 | for a favourite name the list loses one entry; otherwise the unchanged list gains one entry with that name at the end |
| ToolService.ToggleRemovesFirstMatch | frontend/src/services/toolService.js:72-76 | for a favourite name only the first match is removed; the others keep position and order |
| ToolService.ToggleAppendsNew | frontend/src/services/toolService.js:77-85 | otherwise one new entry is appended at the end |
| ToolService.ToggleFlips | frontend/src/services/toolService.js:66-97 | with unique names, each toggle flips `isFavorite` and keeps names unique |
| ToolService.ToggleTwiceAfterAdd | frontend/src/services/toolService.js:66-91 | adding a favourite and toggling it again restores the list |
| ToolService.ToolStore.IsFavorite | frontend/src/services/toolService.js:94-97 | true exactly when some stored favourite has the name |
| ToolService.ToolStore.RecordToolAccess | frontend/src/services/toolService.js:39-64 | the recent list becomes `Recorded`; the tool is first; at most 10; favourites untouched |
| ToolService.ToolStore.ToggleFavorite | frontend/src/services/toolService.js:67-91 | favourites become `Toggled`; the length drops by 1 for a favourite and grows by 1 otherwise |
| ToolService.ToolStore.ClearRecentTools | frontend/src/services/toolService.js:100-102 | afterwards `getRecentTools` returns [] |
| ToolService.FormatTime | frontend/src/services/toolService.js:105-117 | under 60000 ms (or negative) is '刚刚'; then whole minutes under an hour, whole hours under a day, whole days beyond |
| Config.CommaItems | backend/app/core/config.py:21 | Count(',') + 1 items, each the stripped piece, none containing ',' |
| Config.ParseEnvList | backend/app/core/config.py:11-21 | default for None or ""; the decoded list for a bracketed value that decodes; otherwise (including failed JSON) the comma items |
| Config.CommaItemsJoin | backend/app/core/config.py:21 | without whitespace, joining the items with ',' gives back the value |
| Config.ParseInt | backend/app/core/config.py:31 | `int(value)` accepts exactly, after `strip()`, a non-empty run of digits, optionally after a '+' or '-'; the value is that of the digits, negated after '-' |
| Config.LeadingZeros | backend/app/core/config.py:31 | leading zeros do not change the value of a numeral |
| Config.ParseIntPadded | backend/app/core/config.py:31 | whitespace around the numeral, a sign and leading zeros are accepted, and the number is read back |
| Config.ParseIntExample | backend/app/core/config.py:31 | `int(' +007 ') == 7` |
| Config.ParseIntDecimal | backend/app/core/config.py:31 | `int(str(n)) == n` for every integer |
| Config.GetEnv | backend/app/core/config.py:24-34 | default when unset; bool true iff the lowercased value is true/1/yes; int gives the parsed number, or `InvalidInt` with the value when `int()` fails; List delegates to `parse_env_list`; str keeps the value |
| Config.GetEnvFlag | backend/app/core/config.py:28-29 | the bool cast never fails and is true exactly for "true", "1", "yes" in any case |
| Config.GetEnvNumber | backend/app/core/config.py:30-31 | the int cast reads back any decimal number |
| Config.MaxFileSize | backend/app/core/config.py:57 | 104857600 (100 MiB) when unset |
| Config.AllowedFileTypes | backend/app/core/config.py:58-63 | the 14 default types, "pdf" among them, when unset or empty |
| Settings.Upserted | backend/app/api/settings.py:125-143 | value and visibility are always the new ones; the type is the new one on insert or when non-empty, the description the new one on insert or when given |
| Settings.UpsertFieldRules | backend/app/api/settings.py:125-143 | insert stores exactly the arguments; update always overwrites value and is_public, type only if non-empty, description only if given |
| Settings.UpsertIdempotent | backend/app/api/settings.py:136-143 | repeating an update changes nothing further |
| Settings.PublicSettings | backend/app/api/settings.py:71-81 | keys are exactly the public settings, each mapped to its value, type and description |
| Settings.PublicAfterWrite | backend/app/api/settings.py:121-146 | an upsert changes the public map at its key only |
| Settings.PublicAfterDelete | backend/app/api/settings.py:162-173 | a delete removes only its key from the public map |
| Settings.DeleteUndoesInsert | backend/app/api/settings.py:125-173 | deleting a newly inserted key restores the table |
| Settings.SystemSettingsTable.UpdateSystemSetting | backend/app/api/settings.py:108-151 | the row of the key becomes `Upserted`; every other row is unchanged |
| Settings.SystemSettingsTable.DeleteSystemSetting | backend/app/api/settings.py:153-175 | 404 with no change for a missing key; otherwise exactly that key is removed |
| Settings.SystemSettingsTable.GetPublicSystemSettings | backend/app/api/settings.py:66-86 | the loop fills the dict `PublicSettings` |
| Settings.DefaultUserSettings | backend/app/models/settings.py:12-27 | a new record has user_id, theme "light", language "zh-CN" and the notification, privacy and AI defaults |
| Settings.Applied | backend/app/api/settings.py:54-56 | the update keeps the record's attribute set |
| Settings.AppliedSetsOnlyKnownAttributes | backend/app/api/settings.py:54-56 | keys the record has take the new values; others are ignored; applying twice equals once |
| Settings.CommittedKeepsOwnership | backend/app/api/settings.py:54-59 | a committed update keeps every record under its own `user_id`, stores the record under its new `user_id`, leaves the user it came from without one when it moved, and leaves every other user's record alone |
| Settings.CommittedInPlace | backend/app/api/settings.py:54-59 | an update that does not rewrite `user_id` always commits, in place |
| Settings.UserSettingsTable.GetUserSettings | backend/app/api/settings.py:12-32 | an existing record is returned unchanged; a missing one is created with the defaults; every record stays under its own `user_id` |
| Settings.UserSettingsTable.UpdateUserSettings | backend/app/api/settings.py:34-64 | the `setattr` loop turns the record into `Applied`; the commit then keeps it under its `user_id`: in place, moved when `user_id` was set to an id without a record, or a 500 with no change when that id is taken; every record stays under its own `user_id` |
| Files.FileExtension | backend/app/api/files.py:35 | '' without '.'; otherwise the lowercased text after the last '.' |
| Files.ValidateUpload | backend/app/api/files.py:28-40 | size > max gives 413 before the type check; otherwise an extension not allowed gives 400; Ok exactly when both pass |
| Files.DefaultSizeBoundary | backend/app/api/files.py:28 | with the defaults, exactly 100 MiB passes and one byte more gives 413 |
| Files.StoredName | backend/app/api/files.py:43 | the stored name is prefix, then '_', then the filename |
| Files.StoredNameDecodes | backend/app/api/files.py:43 | with '_'-free prefixes, stored names are equal only for the same prefix and filename |
| Files.PathJoin | backend/app/api/files.py:44 | the path is the directory, then the name, with a '/' between them unless the directory already ends in one |
| Files.JoinWithComma | backend/app/api/files.py:39 | the list of allowed types starts with the first type and ends with the last; a single type is itself |
| Files.NewRecord | backend/app/api/files.py:51-59 | a new record is stored under the stored name, private, with zero downloads |
| Files.SharingPublishes | backend/app/api/files.py:194-225 | after sharing, a public fetch succeeds exactly while the file is on disk; no other file is affected |
| Files.FileTable.Upload | backend/app/api/files.py:16-68 | a validation error changes nothing; otherwise one new record under a fresh id, and the next id moves up by one |
| Files.FileTable.Download | backend/app/api/files.py:138-173 | 404 with no change if the file is not the user's or not on disk; otherwise download_count rises by exactly 1 |
| Files.FileTable.Share | backend/app/api/files.py:175-202 | 404 with no change if the file is not the user's; otherwise is_public becomes true |
| Files.FileTable.GetPublicFile | backend/app/api/files.py:204-231 | succeeds exactly for an existing, public, on-disk file; otherwise 404 |

## Left out

- Database access is outside the model. This covers SQL filters (`contains`, `startswith`, `LIKE` case rules), joins, `group_by`, `order_by`, `distinct().count()`, commits and refreshes. Rows arrive already filtered; only the `.limit(n)` caps are modelled.
- Dashboard aggregates computed in SQL are not modelled: `total_visits`, `total_users`, `active_users`, `tool_usage_stats` and `tool_usage`. The same goes for `join_days`, which reads the clock.
- Dashboard.ConversionRate: `round(conversion_rate, 2)` is not modelled, because it is floating-point rendering.
- Search.SizeLabelOf: the "%.1f" rendering of the amount is not modelled, because it is floating-point formatting. Only zero handling and unit selection are modelled.
- Search results drop their `metadata` dicts and `isoformat()` strings, because those are plain copies of row columns.
- Strings.Strip: its own contract says only that the result is no longer than the text. That it is the middle of the text between the leading and the trailing whitespace is the lemma `Strings.StripIsMiddle`.
- Strings.Words: its own contract says only that each word is non-empty and free of whitespace. That the words are the maximal runs, in order, is the lemma `Strings.WordsOfSpaced`, stated for texts written as words between whitespace gaps.
- The key order of the `activity_stats` and `settings_dict` dicts, which the JSON responses keep, is not modelled: both are maps.
- Settings.UserSettingsTable.UpdateUserSettings: a `user_id` that is not an integer is modelled as a failed commit. The database's type coercion of such a value is not modelled.
- Strings.Lower: case mapping, `split()` and `strip()` cover ASCII only. Python's are Unicode-aware.
- Config.ParseInt: Python's `int()` also accepts '_' between digits and non-ASCII digits. The model does not.
- Config.ParseEnvList: `json.loads` is a parameter. A decoded value that is not a list of strings is not distinguished.
- Config.GetEnv: for the List cast it requires a list default. The source passes the default through unchanged whatever its type.
- The other `Settings` class fields (APP_NAME, PORT, …) and the directory creation at import are not modelled. They are one `get_env` call each, or file I/O.
- Settings.UserSettingsTable.UpdateUserSettings: it requires the record to exist. The source's creation path passes the data straight to the ORM constructor, whose handling of unknown keys is ORM behaviour.
- `hasattr` is modelled as "is a column of the record". ORM attributes that are not columns are not modelled: the `user` relationship, methods, and the `id`/`created_at`/`updated_at` columns the database fills in.
- Files.FileTable.Upload: the uuid, reading the upload, and writing the file are parameters or left out.
- `os.path.exists` is the `disk` set, and `os.remove` is not modelled.
- The file list, info and delete endpoints, `get_system_settings`, and the theme and language lists are not modelled. They are plain queries or constant lists.
- `record_activity` is not modelled: it is a database insert.
- ToolService: `localStorage`, `JSON.parse`/`stringify` and `Date.now()` are the store's fields and the `now` parameter.
- ToolService.FormatTime: it returns the phrase's kind and number, not the rendered Chinese text.
- The following files are not part of this model:
  - backend/app/core/security.py: JWT and bcrypt libraries.
  - backend/app/api/auth.py, chat.py and ai_tools.py: database CRUD with stubbed AI replies.
  - src/config/links.js: DOM code.
  - The ORM, schema and application wiring files: only their default constants are used.
