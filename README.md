# ccost in Dafny

A Dafny model of the core of **ccost**. ccost scans Claude Code session logs: one JSON line per API message, in `~/.claude/projects/<encoded-project>/<session>.jsonl`. It prices the token usage it finds per model, caches per-file aggregates in SQLite, and prints daily cost summaries.

The model covers:

- **Scanner** (`scanner.dfy`). Classifies the discovered log files against the cache as added, changed, unchanged or removed. Derives a file's session id and project directory from its path.
- **Parser** (`parser.dfy`). The per-line filter chain, which has four steps:
  1. a cheap pre-filter;
  2. a shape check;
  3. first-wins deduplication on `message.id:requestId`, shared by every file of one batch;
  4. rejection of empty and `<synthetic>` models.

  It then aggregates one file's messages per (local date, model) into usage records.
- **Pricing** (`pricing.dfy`). The `PricingTable` class covers:
  - the built-in rates, with the cached overrides merged over them;
  - lookup: an exact key; else the first key that matches by substring in either direction; else the sonnet rates, recording a `claude-` name as unknown;
  - the cost formula `Σ tokens × rate / 1 000 000`;
  - the unknown-model list and its reset.
- **Database** (`database.dfy`). The `CostDatabase` class holds the `files` and `usage` tables as maps. What it models:
  - `writeResults`: deletes, then insert-if-absent, inside a transaction. A failed preparation of either INSERT statement rolls everything back; a failed DELETE is ignored.
  - `queryDailySummaries`:
    - the WHERE clause (inclusive date bounds, a project substring);
    - `GROUP BY date, model`, with each group priced through the pricing table;
    - merging the groups into one summary per date;
    - a separate distinct-session count per date;
    - sorting by date.
  - `getCachedFiles`, which returns an empty cache when its SELECT fails to prepare, and `clearCache`.
- **ProjectDecoder** (`project_decoder.dfy`). Turns an encoded project directory name into a `~/…` path and a project name.
- **CLI** (`cli.dfy`). `normalizeDate` and the argument scan of `parseArgs`, stated against a tokenizer, plus the whole `main` pipeline (`Run`): rebuild, diff, parse, write, query. Whether each SQL statement prepares is a parameter of `Run`.
- **Formatter** (`formatter.dfy`). The terminal table: ANSI styles, padding, the seven-column layout, and the totals and stats lines.
- **Bar formatters** (`bar_formatters.dfy`). The pieces of the menu-bar app's formatter that compute:
  - token units;
  - time remaining;
  - the progress bar;
  - projected weekly usage.

Shared pieces:

- `models.dfy` holds the records of `Models.swift`: `FileInfo`, `DiffResult`, `UsageRecord`, `DailySummary`, `ModelPricing` and `CliOptions` with its defaults.
- `strings.dfy` holds the string helpers: prefix, suffix and substring tests; split and join; decimal rendering; lexicographic order.
- `wrappers.dfy` holds `Option`.

Environment-dependent values are parameters:

- each file's content, as already-decoded lines;
- the conversion of a timestamp to a local date;
- the outcome of each SQLite statement preparation;
- `String(format:)` / `NumberFormatter` rendering;
- the time until a reset.

### Source behaviour the model keeps

- **`writeResults` rollback.** It rolls back only when one of its two INSERT statements fails to prepare. A failing `DELETE` or a failing INSERT step is ignored. An INSERT whose key already exists therefore leaves the first row in place, so the model's inserts are insert-if-absent.
- **Timestamps.** A timestamp that does not parse is not dropped by a check of its own. `toLocalDate` returns `""` for it, and the `date.count == 10` guard drops it, along with any other date not 10 characters long.
- **Pricing state.** Pricing is a mutable table whose unknown-model set grows during lookups and is read after the query. It is not an immutable snapshot.
- **Empty substrings.** Foundation's `String.contains(_:)` returns false for an empty argument. So an empty model name never fuzzy-matches a pricing key, and an empty key never matches a name (`Strings.FoundationContains`).
- **Token units.** The menu bar's token formatter has no billions unit: it shows `1500.0M` where the CLI table shows `1.5B`.

## Model

| member | source | states |
|---|---|---|
| Models.Paths | app/Sources/CCostLib/Scanner.swift:47-50 | the paths of the discovered files, index by index, same length |
| Scanner.DiffFiles | app/Sources/CCostLib/Scanner.swift:40-68 | `added`/`changed` are exactly the discovered files whose path is not cached / whose cached mtime or size differs, in discovery order; `unchangedPaths` lists the rest; `removed` lists, without duplicates, exactly the cached paths that were not discovered |
| Scanner.WithStatusMember | app/Sources/CCostLib/Scanner.swift:49-63 | a file is in a status bucket iff it was discovered and its status against the cache is that one |
| Scanner.WithStatusAppend | app/Sources/CCostLib/Scanner.swift:49-63 | the classification of the files of `d1 + d2` is the classification of `d1` followed by that of `d2` |
| Scanner.DiffCounts | app/Sources/CCostLib/Scanner.swift:49-63 | the three buckets together hold every discovered file exactly once (their sizes sum to the number discovered) |
| Scanner.DiffPartition | app/Sources/CCostLib/Scanner.swift:49-63 | for a discovered file: added iff uncached, changed iff cached with a different mtime or size, unchanged iff its cached pair equals its own |
| Scanner.RemovedDisjoint | app/Sources/CCostLib/Scanner.swift:65 | a removed path is in no bucket, and every cached path is either removed or discovered |
| Scanner.CacheMatchesNothingToDo | app/Sources/CCostLib/Scanner.swift:49-63 | when every discovered file's pair matches the cache, nothing is added or changed |
| Scanner.LastPathComponent | app/Sources/CCostLib/Scanner.swift:90-96 | the last path component holds no '/' |
| Scanner.ExtractSessionId | app/Sources/CCostLib/Scanner.swift:90-96 | the session id is the last path component without its `.jsonl` suffix (unchanged when it has none) and holds no '/' |
| Scanner.SessionIdOfLogFile | app/Sources/CCostLib/Scanner.swift:90-96 | `dir/<id>.jsonl` yields `id` |
| Scanner.ExtractProjectDir | app/Sources/CCostLib/Scanner.swift:98-104 | a path outside the projects directory is returned as it is; inside it, the result is the first component of the relative path (a whole component, holding no '/') |
| Scanner.ProjectDirOfLogFile | app/Sources/CCostLib/Scanner.swift:98-104 | `<projects>/<project>/<rest>` yields `project` |
| Parser.LineStep | app/Sources/CCostLib/Parser.swift:39-69 | one line's step only grows the seen-set, by at most the line's dedup key, and always by that key when it has one; a kept message has a real model and a key (if any) not seen before |
| Parser.LineKept | app/Sources/CCostLib/Parser.swift:39-69 | a line yields a message iff it has the usage shape, a fresh or absent dedup key and a model that is neither empty nor `<synthetic>`; the message copies model and timestamp (`""` when absent) and takes 0 for each missing or non-integer count |
| Parser.DedupKeyConsumed | app/Sources/CCostLib/Parser.swift:49-57 | a line whose dedup key was seen yields nothing and changes nothing; a keyed line marks its key seen even when its model is then rejected |
| Parser.NoKeyNoDedup | app/Sources/CCostLib/Parser.swift:52-57 | a line lacking one of the two ids touches no seen-set and yields the same message whatever was seen |
| Parser.SkippedLineNoEffect | app/Sources/CCostLib/Parser.swift:39-47 | a line failing the pre-filter or the shape check leaves the extraction as it was |
| Parser.ExtractedModelsAreReal | app/Sources/CCostLib/Parser.swift:59-60 | every extracted message has a model that is neither empty nor `<synthetic>` |
| Parser.ExtractSeenGrows | app/Sources/CCostLib/Parser.swift:49-57 | the seen-set only grows along a file |
| Parser.KeyCountAtMostOne | app/Sources/CCostLib/Parser.swift:49-57 | first-wins within a file: at most one line per dedup key yields a message, none when the key was seen before the file, and the key is seen afterwards |
| Parser.RunKeyCountAtMostOne | app/Sources/CCostLib/Parser.swift:6-16 | first-wins across a batch: over all files, a dedup key yields at most one message |
| Parser.ExtractMessages | app/Sources/CCostLib/Parser.swift:37-70 | the loop's messages and seen-set are those of the line-by-line filter chain |
| Parser.AggregateSnoc | app/Sources/CCostLib/Parser.swift:88-111 | one more message leaves the aggregate alone when it has no timestamp or no 10-character date, and otherwise adds its counts and 1 to its (date, model) entry, creating it from zero |
| Parser.AggregateSnocNone | app/Sources/CCostLib/Parser.swift:89-91 | a message without a usable date leaves the aggregate unchanged |
| Parser.AggregateSnocSome | app/Sources/CCostLib/Parser.swift:93-110 | a message with key `k` updates entry `k` only, by adding its counts and one message |
| Parser.AddToAggregate | app/Sources/CCostLib/Parser.swift:95-110 | the if-existing/else update of one key: the entry gains the message's counts and one message, or is created with them |
| Parser.AggregateMessages | app/Sources/CCostLib/Parser.swift:86-111 | the loop builds exactly, per (date, model) key seen with a valid date, the field-wise totals and the count of that key's messages |
| Parser.TotalCountsMessages | app/Sources/CCostLib/Parser.swift:95-110 | an entry's message count is the number of messages summed into it |
| Parser.AggregateKeys | app/Sources/CCostLib/Parser.swift:88-93 | every aggregated key has a 10-character date and some message behind it, and every message with a valid date has its key aggregated |
| Parser.RecordTotals | app/Sources/CCostLib/Parser.swift:95-110 | a key's totals are additive: another key's message leaves them alone, one of the same key adds its input tokens |
| Parser.TotalSnoc | app/Sources/CCostLib/Parser.swift:96-100 | the totals of `msgs + [m]` are the totals of `msgs` plus `m` and one message |
| Parser.ListRecords | app/Sources/CCostLib/Parser.swift:113-126 | the output lists each aggregated key exactly once, as a record carrying the file's path, session id, project directory and that key's totals |
| Parser.ParseFile | app/Sources/CCostLib/Parser.swift:18-127 | an unreadable file yields no records and marks nothing seen; otherwise the records list the aggregate of the extracted messages, and the seen-set is the filter chain's |
| Parser.ParseFiles | app/Sources/CCostLib/Parser.swift:6-16 | the records are the concatenation of one listing per file, each aggregated under the seen-set its predecessors left, and every record's path is one of the files' paths |
| Pricing.UnknownAfter | app/Sources/CCostLib/Pricing.swift:86-88 | a lookup adds at most the looked-up name to the unknown set, and adds it iff it is new, has neither an exact nor a substring match, and starts with `claude-` |
| Pricing.FirstMatch | app/Sources/CCostLib/Pricing.swift:81-83 | a key matching by substring in either direction with no matching key before it in iteration order; none iff no key matches |
| Pricing.PriceOf | app/Sources/CCostLib/Pricing.swift:74-90 | an exact entry wins; else the entry of the first key in iteration order that matches by substring; else the built-in sonnet rates |
| Pricing.FirstMatchAt | app/Sources/CCostLib/Pricing.swift:81-83 | the fuzzy lookup returns the earliest matching key in iteration order |
| Pricing.PriceOfResolves | app/Sources/CCostLib/Pricing.swift:74-90 | the lookup returns the exact entry; else a matching key's entry; else the built-in sonnet rates |
| Pricing.KeyOrderPut | app/Sources/CCostLib/Pricing.swift:97-99 | writing a key keeps the iteration order a duplicate-free listing of the table, appending only new keys |
| Pricing.PricingTable.constructor | app/Sources/CCostLib/Pricing.swift:43-46 | the table starts as the built-in rates with the cached overrides merged over them, and no unknown models |
| Pricing.PricingTable.LoadCachedPricing | app/Sources/CCostLib/Pricing.swift:92-100 | the new table is the old one with the cached entries overriding (`old + cached`), the unknown set untouched |
| Pricing.PricingTable.GetPricing | app/Sources/CCostLib/Pricing.swift:74-90 | returns the lookup's rates, leaves the table as it was and records the name iff unknown and `claude-` |
| Pricing.PricingTable.CalculateCost | app/Sources/CCostLib/Pricing.swift:60-72 | the cost of the four counts at the looked-up rates, with the lookup's effect on the unknown set |
| Pricing.PricingTable.UnknownModelList | app/Sources/CCostLib/Pricing.swift:48-52 | a duplicate-free listing of exactly the unknown names |
| Pricing.PricingTable.ResetUnknownModels | app/Sources/CCostLib/Pricing.swift:54-58 | empties the unknown set and nothing else |
| Pricing.BuiltinSonnet | app/Sources/CCostLib/Pricing.swift:19-24 | the fallback key is in the built-in table with rates 3 / 15 / 3.75 / 0.30 |
| Pricing.MergeOverrides | app/Sources/CCostLib/Pricing.swift:97-99 | after merging, a key is present iff built in or overridden, and an override wins on collision |
| Pricing.ExactKeyWins | app/Sources/CCostLib/Pricing.swift:78 | a name in the table gets its own entry and is never recorded as unknown |
| Pricing.EmptyNeverMatches | app/Sources/CCostLib/Pricing.swift:81-83 | Foundation's `contains` finds the empty string nowhere, so an empty name or an empty key takes part in no substring match; an empty name absent from the table gets the sonnet rates and is not recorded as unknown |
| Pricing.FallbackIgnoresOverride | app/Sources/CCostLib/Pricing.swift:89 | the fallback uses the built-in sonnet rates even when the sonnet key is overridden, and a non-`claude-` name is not recorded |
| Pricing.UnknownOnlyClaude | app/Sources/CCostLib/Pricing.swift:86-88 | an unmatched new `claude-` name is added to the unknown set; any other name never is |
| Pricing.Cost | app/Sources/CCostLib/Pricing.swift:67-71 | zero tokens cost nothing; non-negative rates and counts give a non-negative cost |
| Pricing.CostExample | app/Sources/CCostLib/Pricing.swift:67-71 | 1000 input and 500 output tokens at sonnet rates cost 0.0105 |
| Pricing.CostAdditive | app/Sources/CCostLib/Pricing.swift:67-71 | cost is additive over token counts |
| Pricing.CostScale | app/Sources/CCostLib/Pricing.swift:67-71 | scaling every count by `c` scales the cost by `c` |
| Database.CostDatabase.constructor | app/Sources/CCostLib/Database.swift:8-51 | opening the store keeps the rows of earlier runs |
| Database.CostDatabase.GetCachedFiles | app/Sources/CCostLib/Database.swift:57-74 | maps exactly the files table's paths to their (mtime, size) when the SELECT prepares, and is empty when it does not |
| Database.CostDatabase.DeletePath | app/Sources/CCostLib/Database.swift:81-82 | removes the path's file row and every usage row of that path |
| Database.CostDatabase.DeleteStale | app/Sources/CCostLib/Database.swift:80-89 | removes the rows of every removed path and every path being written, and nothing else |
| Database.CostDatabase.InsertFiles | app/Sources/CCostLib/Database.swift:99-108 | inserts the file rows in order, an existing key keeping its row; usage untouched |
| Database.CostDatabase.InsertUsage | app/Sources/CCostLib/Database.swift:122-136 | inserts the usage rows in order, an existing key keeping its row; files untouched |
| Database.CostDatabase.WriteResults | app/Sources/CCostLib/Database.swift:76-139 | when both inserts prepare, the tables are those after the deletes and inserts; when either fails to prepare, both tables are exactly as before; every usage row stays attached to a file row when every record comes from a written file |
| Database.CostDatabase.SumRows | app/Sources/CCostLib/Database.swift:161-171 | the loop sums the four token columns over the given rows |
| Database.CostDatabase.PriceGroup | app/Sources/CCostLib/Database.swift:183-200 | a group's token sums, and its cost at the looked-up rates, with the lookup's effect on the unknown set |
| Database.CostDatabase.AccumulateDays | app/Sources/CCostLib/Database.swift:183-220 | one entry per selected date, holding the sum over that date's groups of cost and tokens; the unknown set grows by exactly the groups' unknown `claude-` models |
| Database.CostDatabase.SetSessions | app/Sources/CCostLib/Database.swift:223-243 | each date's session count becomes the number of distinct session ids among its rows, other fields kept |
| Database.CostDatabase.QueryDailySummaries | app/Sources/CCostLib/Database.swift:141-246 | no result and no lookup when the query does not prepare; otherwise strictly ascending dates, exactly one summary per selected date, each the day's priced sums and distinct sessions (0 when the session query does not prepare), and the unknown set grows by exactly the selected groups' unmatched `claude-` models |
| Database.CostDatabase.ClearCache | app/Sources/CCostLib/Database.swift:248-251 | both tables become empty (so every usage row trivially has its file row) |
| Database.IntegrityAfterWrite | app/Sources/CCostLib/Database.swift:76-139 | a committed write keeps every usage row attached to a file row when every record comes from one of the files written |
| Database.Selected | app/Sources/CCostLib/Database.swift:145-158 | the WHERE clause keeps a subset of the stored rows |
| Database.GroupCosts | app/Sources/CCostLib/Database.swift:161-171 | one cost per (date, model) group of the selected rows |
| Database.AddToDayMap | app/Sources/CCostLib/Database.swift:202-219 | a group's cost and tokens are added to its date's summary, or start it |
| Database.InsertByDate | app/Sources/CCostLib/Database.swift:245 | inserting a summary with a new date keeps the dates ascending and the contents those of before plus it |
| Database.SortByDate | app/Sources/CCostLib/Database.swift:245 | lists the summaries of the day map in strictly ascending date order, each date exactly once |
| Database.InsertAllKeys | app/Sources/CCostLib/Database.swift:99-107 | the keys after the inserts are the old keys plus the inserted ones |
| Database.InsertAllKeeps | app/Sources/CCostLib/Database.swift:99-107 | an existing row survives any insert of its key |
| Database.InsertAllFirstWins | app/Sources/CCostLib/Database.swift:99-107 | on a fresh key, the first inserted row wins |
| Database.InsertAllFromEntry | app/Sources/CCostLib/Database.swift:122-135 | a new key's row is one of the inserted rows |
| Database.RemovedPathsGone | app/Sources/CCostLib/Database.swift:80-83 | a removed path not re-inserted has neither file nor usage rows after the write |
| Database.WrittenFileRows | app/Sources/CCostLib/Database.swift:86-107 | a written file's row holds its new metadata (the first occurrence wins) |
| Database.UntouchedFilesKept | app/Sources/CCostLib/Database.swift:76-139 | a file neither removed nor written keeps its row |
| Database.UntouchedUsageKept | app/Sources/CCostLib/Database.swift:76-139 | usage rows of untouched paths survive the write |
| Database.NoStaleUsage | app/Sources/CCostLib/Database.swift:86-89 | after the write, a usage row of a rewritten or removed path comes from the new records |
| Database.RecordsInserted | app/Sources/CCostLib/Database.swift:122-135 | a record of a written file is stored (the first of its key wins) |
| Database.InRangeBounds | app/Sources/CCostLib/Database.swift:147-152 | a kept date is at or after `since` and at or before `until` |
| Database.SessionsBounds | app/Sources/CCostLib/Database.swift:223-243 | a date's session count is at most its row count and at least 1 when it has rows |
| Database.SessionsCountedOnce | app/Sources/CCostLib/Database.swift:223-243 | a session using two models on a date is counted once |
| Database.DayComplete | app/Sources/CCostLib/Database.swift:183-243 | the merged per-date entry with its session count is the day's summary |
| Database.SumTokensUnion | app/Sources/CCostLib/Database.swift:202-219 | token sums are additive over disjoint row sets |
| ProjectDecoder.Decode | app/Sources/CCostLib/ProjectDecoder.swift:8-18 | a name with no `Users` component is returned as it is; otherwise the result is `~` or starts with `~/` |
| ProjectDecoder.IndexOf | app/Sources/CCostLib/ProjectDecoder.swift:12 | `firstIndex(of:)`: none iff absent, else an index holding the value with no earlier one |
| ProjectDecoder.ComponentsOfEncodePath | app/Sources/CCostLib/ProjectDecoder.swift:9-10 | splitting an encoded path on '-' gives back its components when none is empty or holds '-' |
| ProjectDecoder.FirstUsers | app/Sources/CCostLib/ProjectDecoder.swift:12 | the first `Users` component is found right after the components before it that are not `Users` |
| ProjectDecoder.DecodeUnderUsers | app/Sources/CCostLib/ProjectDecoder.swift:8-18 | whatever comes before the first `Users`, it and the user name are dropped and the rest is `~/<rest joined by '/'>`, or `~` when nothing follows |
| ProjectDecoder.DecodeUsersLast | app/Sources/CCostLib/ProjectDecoder.swift:14-15 | a final `Users` with no user name after it decodes to `~` |
| ProjectDecoder.DecodeWithoutUsers | app/Sources/CCostLib/ProjectDecoder.swift:12 | an encoded path without a `Users` component decodes to itself |
| ProjectDecoder.DecodeHomePath | app/Sources/CCostLib/ProjectDecoder.swift:8-18 | the encoding of `/Users/<user>/<parts>` decodes to `~/<parts joined by '/'>` |
| ProjectDecoder.DecodeHome | app/Sources/CCostLib/ProjectDecoder.swift:14-17 | the home directory itself decodes to `~` |
| ProjectDecoder.ComponentsOfEncode | app/Sources/CCostLib/ProjectDecoder.swift:9-10 | splitting the encoding on '-' gives back `Users`, the user and the parts |
| ProjectDecoder.ProjectName | app/Sources/CCostLib/ProjectDecoder.swift:22-26 | the project name is the last '/'-component of the decoded path (all of it when it has no '/') |
| ProjectDecoder.ProjectNameOfHomePath | app/Sources/CCostLib/ProjectDecoder.swift:22-26 | the project name of an encoded home path is its last part |
| ProjectDecoder.DocumentedDecode | app/Sources/CCostLib/ProjectDecoder.swift:6-8 | `-Users-brennan-code-openclaw` decodes to `~/code/openclaw` |
| ProjectDecoder.DocumentedProjectName | app/Sources/CCostLib/ProjectDecoder.swift:20-22 | its project name is `openclaw` |
| Cli.NormalizeDate | app/Sources/ccost-cli/main.swift:20-25 | an 8-character date without '-' gets dashes at positions 4 and 7 and keeps its digits; anything else is returned as it is |
| Cli.NormalizeDateIdempotent | app/Sources/ccost-cli/main.swift:20-25 | normalizing twice is normalizing once |
| Cli.NormalizeDateExamples | app/Sources/ccost-cli/main.swift:20-25 | `20250105` becomes `2025-01-05`, and `2025-01-05` stays as it is |
| Cli.ScanAt | app/Sources/ccost-cli/main.swift:36-78 | an argument is read with its value only when one follows, never past the end |
| Cli.ParseArgs | app/Sources/ccost-cli/main.swift:27-81 | the loop returns none iff a help token is scanned, else the options the scanned tokens set from the defaults |
| Cli.ScanStep | app/Sources/ccost-cli/main.swift:36-78 | one loop step consumes exactly the scanned token and applies it to the options |
| Cli.TokenizeCoversArgs | app/Sources/ccost-cli/main.swift:36-78 | the scan consumes every argument exactly once |
| Cli.HelpAfterFlags | app/Sources/ccost-cli/main.swift:39-42 | `-h`/`--help` after any flags yields no options, whatever follows |
| Cli.OptionValueNotScanned | app/Sources/ccost-cli/main.swift:44-49 | the value of `--since` is not scanned as an option, even `-h` |
| Cli.DanglingOption | app/Sources/ccost-cli/main.swift:44-63 | an option given without its value is ignored |
| Cli.LastSinceWins | app/Sources/ccost-cli/main.swift:44-49 | the last `--since` wins, normalized |
| Cli.LastUntilWins | app/Sources/ccost-cli/main.swift:51-56 | the last `--until` wins, normalized |
| Cli.LastProjectWins | app/Sources/ccost-cli/main.swift:58-63 | the last `--project` wins |
| Cli.OptionsFlags | app/Sources/ccost-cli/main.swift:44-75 | each flag is set iff its token occurs, and each option is present iff given |
| Cli.OptionsSwitches | app/Sources/ccost-cli/main.swift:65-75 | `json` and `rebuild` are set exactly when their flag occurs among the tokens |
| Cli.OptionsValues | app/Sources/ccost-cli/main.swift:44-63 | `since`, `until` and `project` are present exactly when an option of that kind with its value occurs |
| Cli.ApplyValues | app/Sources/ccost-cli/main.swift:44-63 | one token makes an option with a value present exactly when it is that option, and never clears one that is set |
| Cli.CacheCurrentAfterWrite | app/Sources/ccost-cli/main.swift:99-112 | after a committed write of the to-process files, the files table holds every discovered file's metadata and only discovered paths |
| Cli.UnchangedFileAfterWrite | app/Sources/ccost-cli/main.swift:102-112 | an unchanged file's row survives the write |
| Cli.ProcessedFileAfterWrite | app/Sources/ccost-cli/main.swift:106-112 | a processed file's row holds its new metadata |
| Cli.CacheCurrentWithoutWrite | app/Sources/ccost-cli/main.swift:108-112 | with nothing to process or remove, the cache already matches the discovery |
| Cli.SecondDiffEmpty | app/Sources/ccost-cli/main.swift:102-103 | against a current cache the diff finds nothing added, changed or removed |
| Cli.AllAddedWithoutCache | app/Sources/CCostLib/Scanner.swift:49-63 | against an empty cache every discovered file is to be processed, in discovery order |
| Cli.FailedSelectKeepsStaleRows | app/Sources/CCostLib/Database.swift:57-62 | when the files SELECT fails, nothing is removed, every file is reparsed, and the row of a file no longer discovered survives the write, so the cache is not current |
| Cli.UpdateCache | app/Sources/ccost-cli/main.swift:94-112 | the diff is taken against the cache as read (empty after `--rebuild` or a failed SELECT); the records are the listings of the added and changed files; the tables are exactly those after the committed write, or unchanged when there is nothing to do or an insert fails; usage rows stay attached to file rows; a committed write after a good SELECT leaves the cache current |
| Cli.Run | app/Sources/ccost-cli/main.swift:83-134 | the cache update as in `UpdateCache`; then the summaries ascend by date, exactly one per selected date, each the day's report of the selected rows; the rates are untouched and the unknown set grows by exactly the selected groups' unmatched `claude-` models |
| Formatter.Escape | app/Sources/CCostLib/Formatter.swift:5-11 | every style is an `ESC [` control sequence |
| Formatter.Pad | app/Sources/CCostLib/Formatter.swift:147-153 | padding widens to the column width with spaces on the aligned side and never truncates |
| Formatter.FormatTokens | app/Sources/CCostLib/Formatter.swift:134-139 | counts below 1000 in digits; K, M and B units from 10^3, 10^6 and 10^9 with one decimal |
| Formatter.FormatCost | app/Sources/CCostLib/Formatter.swift:141-143 | a dollar sign followed by the two-decimal rendering |
| Formatter.StatsMsgWords | app/Sources/CCostLib/Formatter.swift:69-71 | the message is the words `N files processed (M cached)`, or `M files (all cached)` when nothing was processed, one space apart |
| Formatter.StatsMsgReadBack | app/Sources/CCostLib/Formatter.swift:69-71 | split at its spaces, the message gives back the processed count as its first word and the cached count after the `(`, or the cached count first when nothing was processed |
| Formatter.Totals | app/Sources/CCostLib/Formatter.swift:45-54 | dated TOTAL; all zero for no summaries; non-negative sessions and costs give non-negative totals |
| Formatter.TotalsAppend | app/Sources/CCostLib/Formatter.swift:45-54 | the totals line sums every field over the summaries, additively, dated TOTAL |
| Formatter.SumSummaries | app/Sources/CCostLib/Formatter.swift:45-54 | the loop computes the field-wise totals |
| Formatter.RowLines | app/Sources/CCostLib/Formatter.swift:38-40 | one formatted row per summary, in order |
| Formatter.Framed | app/Sources/CCostLib/Formatter.swift:34-73 | the table is a blank line, header, separator, the rows, separator, total, separator, header, stats and a blank line |
| Formatter.TableLines | app/Sources/CCostLib/Formatter.swift:34-73 | nine lines plus one per summary: blank, header, separator, each summary's row in order, separator, the totals of all summaries, separator, header, stats, blank |
| Formatter.AppendRows | app/Sources/CCostLib/Formatter.swift:38-40 | the loop appends one line per summary |
| Formatter.FormatTable | app/Sources/CCostLib/Formatter.swift:24-76 | no summaries gives the dim "No usage data found."; otherwise the framed table joined by newlines |
| Formatter.SeparatorIs86 | app/Sources/CCostLib/Formatter.swift:120-122 | the separator is 86 visible characters |
| Formatter.HeaderColumns | app/Sources/CCostLib/Formatter.swift:108-118 | without its styles the header is the column titles laid out in the column widths |
| Formatter.RowColumns | app/Sources/CCostLib/Formatter.swift:124-132 | without its styles a row is its cells laid out in the same columns as the header |
| Formatter.TotalColumns | app/Sources/CCostLib/Formatter.swift:56-64 | the totals line uses the same layout, with TOTAL for the date |
| Formatter.LayoutWidth | app/Sources/CCostLib/Formatter.swift:13-20 | cells within their widths lay out to exactly the separator's width |
| Formatter.VisibleAppend | app/Sources/CCostLib/Formatter.swift:107-131 | the visible text of joined pieces is the join of their visible texts |
| BarFormatters.FormatTokens | app/Sources/CCostBar/Formatters.swift:21-27 | digits below 1000, K from 10^3, M from 10^6 upward, with one decimal |
| BarFormatters.TokensAgreeWithTable | app/Sources/CCostBar/Formatters.swift:21-27 | below 10^9 the menu bar and the table render token counts alike; from 10^9 the menu bar keeps M where the table uses B |
| BarFormatters.Truncate | app/Sources/CCostBar/Formatters.swift:30 | conversion of a real to an integer, toward zero |
| BarFormatters.Breakdown | app/Sources/CCostBar/Formatters.swift:30-33 | whole days, hours below 24 and minutes below 60 whose total is within a minute below the seconds |
| BarFormatters.BreakdownUnique | app/Sources/CCostBar/Formatters.swift:30-33 | that breakdown is the only one |
| BarFormatters.BreakdownScale | app/Sources/CCostBar/Formatters.swift:31-33 | the days are positive exactly from a day on, and below a day the hours are positive exactly from an hour on |
| BarFormatters.TimeText | app/Sources/CCostBar/Formatters.swift:35-39 | days shown end in `h` and hold a `d`; otherwise the text ends in `m` and holds no `d`, with an `h` iff there are hours |
| BarFormatters.FormatTimeRemaining | app/Sources/CCostBar/Formatters.swift:29-40 | a day or more shows days and hours; from an hour to a day shows hours and minutes; under an hour shows minutes only |
| BarFormatters.TimeRemainingPast | app/Sources/CCostBar/Formatters.swift:29-40 | a reset less than a second away, or past, shows `0m` |
| BarFormatters.TimeRemainingMinutes | app/Sources/CCostBar/Formatters.swift:35-39 | under an hour shows `<m>m` |
| BarFormatters.TimeRemainingHours | app/Sources/CCostBar/Formatters.swift:35-39 | under a day shows `<h>h <m>m` |
| BarFormatters.TimeRemainingDays | app/Sources/CCostBar/Formatters.swift:35-39 | a day or more shows `<d>d <h>h` |
| BarFormatters.FilledCells | app/Sources/CCostBar/Formatters.swift:42-48 | the filled count is clamped to 0..width and is the truncated share of the width |
| BarFormatters.ProgressBar | app/Sources/CCostBar/Formatters.swift:42-48 | exactly `width` cells: full blocks for the filled prefix, light shade for the rest |
| BarFormatters.FilledMonotonic | app/Sources/CCostBar/Formatters.swift:42-48 | a higher percentage never fills fewer cells |
| BarFormatters.ProjectedUsage | app/Sources/CCostBar/Formatters.swift:91-98 | a projection exists iff the reset is ahead and more than an hour of the week has elapsed, and it is the utilization scaled to the whole week |
| BarFormatters.ProjectionAtLeastCurrent | app/Sources/CCostBar/Formatters.swift:91-98 | a projection is never below the current utilization |
| Strings.SplitJoin | app/Sources/CCostLib/ProjectDecoder.swift:9-10 | splitting the join of non-empty separator-free parts gives them back |
| Strings.AfterLast | app/Sources/CCostLib/ProjectDecoder.swift:22-26 | the text after the last separator: a suffix, separator-free, the whole string when there is none |
| Strings.LessTransitive | app/Sources/CCostLib/Database.swift:245 | the date order is transitive (with LessIrreflexive, LessTotal and LessAsymmetric, a strict total order) |

## Left out

- Discovering files (the directory walk of `Scanner.discoverFiles`, `stat`): the discovered list with mtimes and sizes is a parameter.
- Reading a file and decoding its text as UTF-8: its content is a parameter, None when unreadable.
- Splitting a file into lines and decoding each line as JSON: each line comes already decoded. The pre-filter is kept as a substring test on the line text.
- The timestamp parsers and the local-date formatter: `toLocalDate` is a parameter.
- SQLite itself. The schema, indices and SQL text become maps and set comprehensions. `ORDER BY date DESC` followed by the Swift sort is modelled as an unspecified order followed by the sort.
- `LIKE '%p%'` is read as case-sensitive substring containment. SQLite's ASCII case-insensitivity and the `%` and `_` wildcards inside the project text are not modelled.
- Failures of `DELETE`, `BEGIN` and `COMMIT`, and of each `sqlite3_step`, are not modelled. Opening the store (a fatal error in the source) is not modelled either: it is a constructor over the persisted tables.
- `Double` becomes `real`. IEEE rounding, NaN and infinities are not modelled. `Int` overflow traps are not modelled: integers are unbounded.
- `String(format:)` and `NumberFormatter` are the parameters `oneDecimal` and `twoDecimals`.
- The `Pricing.shared` singleton, its `NSLock`, and locating and decoding `pricing.json` are not modelled. The decoded overrides are an optional map parameter.
- The iteration order of a Swift dictionary is not modelled:
  - The pricing table's order is the field `keyOrder`.
  - Every other dictionary iteration (the removed list, the aggregate's output, the day map) is an arbitrary choice.
- `formatJson`, `printHelp`, writing to stdout and stderr, and the elapsed-time clock are not modelled. `Cli.Run` returns the summaries, the diff and the parsed records. The unknown models it would warn about remain in the pricing table, and its contract states what they are.
- The rest of the menu-bar app is not modelled: its views, services, network calls, settings and hot keys. Within its formatters, `formatCost`, `formatPercent`, `formatMenuBar`, `displayFormatLabel`, `formatTimestamp` and `hotKeyComboLabel` only forward to `NumberFormatter`, `DateFormatter` or string tables.
- BarFormatters.FormatTimeRemaining: the time until the reset is a real parameter in place of `date.timeIntervalSinceNow`.
- BarFormatters.ProgressBar: requires `width >= 0`, because the source traps on a negative repeat count.
- BarFormatters.ProjectedUsage: takes the seconds until the reset in place of the reset date.
- Cli.Run: the guarantee that the cache is current after the run assumes that the files SELECT prepared and that the discovered paths are distinct, as a directory walk yields them. After a failed SELECT the cache is provably not current when a stale row exists (`Cli.FailedSelectKeepsStaleRows`).
- Swift `String` is modelled as a sequence of Unicode scalars. Swift counts and compares grapheme clusters under canonical equivalence. This matters where the source uses `count`: `pad` (Formatter.swift:148), the `d.count == 8` test of `normalizeDate` (main.swift:21), the `date.count == 10` guard (Parser.swift:91) and `dropFirst(prefix.count)` (Scanner.swift:101). It also matters where the source compares strings with `==`, `hasPrefix`, `contains` and `<`. The model uses code-point length and plain code-point comparison. The two differ only for text with combining marks or other multi-scalar characters.
- Scanner.ExtractSessionId: `NSString.lastPathComponent` also drops trailing '/' characters before taking the last component. The model does not, because a path from the directory walk names a `.jsonl` file and never ends in '/'.
- BarFormatters.ProgressBar: the default argument `width: Int = 20` is the constant `DefaultWidth`. Callers of the model pass the width explicitly.
