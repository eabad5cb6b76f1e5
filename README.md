# QuickMemo, modelled in Dafny

QuickMemo is an iOS note-taking app. A memo has a title, text, a category, tags, a duration and an optional calendar event. Categories carry default tags and an order. The app also has:

- a home-screen widget and a watch app, which share categories and memos through an App Group;
- an AI "arrange" sheet that rewrites a memo with a chosen prompt and keeps usage statistics;
- import and export in JSON, CSV, Markdown and plain text;
- localisation into Japanese, English and Simplified Chinese, or following the device language;
- free-tier limits on memos, categories and tags, which a Pro purchase or watched reward adverts raise.

A companion Python script, `scripts/extract_backup_data.py`, recovers memos and categories from an unencrypted iPhone backup. It finds the app's files through the backup's `Manifest.db` and reads the property-list files among them (the stored preferences); it does not open the Core Data store.

This project models that core in Dafny:

- **Pure logic** (parsing, counting, filtering, limits) is written as functions. Lemmas state the round trips, bounds and partitions the code relies on.
- **Step-by-step code** is written as methods with loop invariants. Each method is proved against the function that specifies it.
- **Objects with mutable properties** are classes: the managers, the usage statistics, the view models and the logger. Their methods state the complete new state.

The app's collaborators are parameters of the members that use them. These are the system clock and calendar, localisation tables, identifier generation, URL decoding, the JSON, plist and SQLite readers, and character classes.

One module per source file, plus shared helper modules:

| module | role |
|---|---|
| `Seqs` | sequence helpers |
| `Text` | trimming, splitting, joining |
| `StringOrder` | string ordering |
| `Sorting` | sorting by key |
| `Wrappers` | `Option` and `Result` |
| `Bytes` | byte helpers |
| `PyValue` | decoded JSON and plist values |
| `SqlLike` | `LIKE` patterns |

## Model

| member | source | states |
|---|---|---|
| BackupExtractor.Child | scripts/extract_backup_data.py:60-61 | joining a name to a path appends it as one more component; the empty name leaves the path as it is |
| BackupExtractor.ReadInfo | scripts/extract_backup_data.py:63-77 | a backup is described exactly when its `Info.plist` is a file that parses to a dictionary; the description carries the directory, whether `Manifest.db` exists beside it, and the device name, product name, last backup date, product version and encryption flag read from the dictionary, with the defaults "Unknown", "Unknown", None, "Unknown" and False for missing keys |
| BackupExtractor.ReadBackupInfo | scripts/extract_backup_data.py:63-79 | the `try` block reading `Info.plist` yields exactly the description `ReadInfo` gives, and nothing when decoding fails |
| BackupExtractor.CollectBackups | scripts/extract_backup_data.py:56-81 | the listing yields at most one backup per directory entry |
| BackupExtractor.CollectBackupsSound | scripts/extract_backup_data.py:56-77 | every backup found is the description of some listed entry that is a directory |
| BackupExtractor.CollectBackupsComplete | scripts/extract_backup_data.py:56-77 | every listed subdirectory whose `Info.plist` decodes is among the backups found |
| BackupExtractor.FindBackups | scripts/extract_backup_data.py:48-81 | the loop over the listing returns the backups of `FindBackupsSpec`: none when the base does not exist, otherwise one per readable subdirectory, in listing order |
| BackupExtractor.EncodeChar | scripts/extract_backup_data.py:87 | a character encodes as 1 to 4 UTF-8 bytes, as one byte equal to the code point exactly when it is ASCII, with continuation bytes in 0x80..0xBF |
| BackupExtractor.Utf8 | scripts/extract_backup_data.py:87 | `str.encode()` yields between one and four bytes per character |
| BackupExtractor.HexDigit | scripts/extract_backup_data.py:87 | a nibble prints as a lower-case hexadecimal digit |
| BackupExtractor.HexDigest | scripts/extract_backup_data.py:87 | `hexdigest()` prints two lower-case hexadecimal digits per digest byte |
| BackupExtractor.ByteNibbles | scripts/extract_backup_data.py:87 | a byte's two printed digits read back as that byte |
| BackupExtractor.UnHexDigest | scripts/extract_backup_data.py:87 | a printed digest reads back as the same digest, so printing loses nothing |
| BackupExtractor.GetFileHash | scripts/extract_backup_data.py:84-87 | the file name is the hexadecimal print of the SHA-1 of the UTF-8 of `domain-relativePath`, made only of lower-case hex digits, twice as long as the digest, and reads back as that digest |
| BackupExtractor.FileHashDistinguishesDigests | scripts/extract_backup_data.py:84-87 | two files share a name only when the digests of their `domain-path` strings are equal |
| BackupExtractor.Params | scripts/extract_backup_data.py:100-103 | the query gets two parameters per search term |
| BackupExtractor.ParamsAt | scripts/extract_backup_data.py:101-103 | the two parameters of the k-th clause are both `%term%` for the k-th term |
| BackupExtractor.BuildQuery | scripts/extract_backup_data.py:98-109 | the loop builds the SELECT with one `(domain LIKE ? OR relativePath LIKE ?)` clause per term joined by `OR`, and the parameters `Params(terms)` |
| BackupExtractor.ToFileInfo | scripts/extract_backup_data.py:114-120 | a row is reported as a directory exactly when its flags are 2 |
| BackupExtractor.MatchingFiles | scripts/extract_backup_data.py:111-120 | the query returns at most one result per table row |
| BackupExtractor.MatchingFilesSound | scripts/extract_backup_data.py:111-120 | every result comes from a row satisfying the WHERE condition |
| BackupExtractor.MatchingFilesComplete | scripts/extract_backup_data.py:111-120 | every row satisfying the WHERE condition is returned |
| BackupExtractor.SearchManifestDb | scripts/extract_backup_data.py:90-126 | the search returns exactly the matching rows of the index in table order, and an empty list when the database cannot be opened or queried |
| BackupExtractor.SearchFindsOnlyTermFiles | scripts/extract_backup_data.py:101-120 | for terms without LIKE wildcards, every file found has some term, ignoring ASCII case, in its domain or its relative path |
| BackupExtractor.SearchFindsTermDomain | scripts/extract_backup_data.py:101-120 | every row whose domain contains a term, ignoring ASCII case, is found |
| BackupExtractor.AppIdentifiersHaveNoWildcards | scripts/extract_backup_data.py:35-38 | the two app identifiers contain neither `%` nor `_`, so the LIKE search matches them literally |
| BackupExtractor.ShardName | scripts/extract_backup_data.py:132 | the shard directory is the first two characters of the file id, or the whole id when it is shorter |
| BackupExtractor.ReadPlist | scripts/extract_backup_data.py:129-146 | a property list is read from the sharded path `id[:2]/id` when that exists, otherwise from the flat path, and nothing when neither exists or decoding fails |
| BackupExtractor.Recover | scripts/extract_backup_data.py:166-182 | a missing key leaves the empty list; a list value is taken as it is |
| BackupExtractor.EmptyExtraction | scripts/extract_backup_data.py:151-156 | the result starts with the four keys categories, memos, categories_backup and archived_memos |
| BackupExtractor.ExtractFromDict | scripts/extract_backup_data.py:149-184 | the extraction of a dictionary has exactly the four result keys |
| BackupExtractor.ExtractKeys | scripts/extract_backup_data.py:166-182 | the key loop never removes a result key |
| BackupExtractor.ExtractSpec | scripts/extract_backup_data.py:149-184 | when the extraction does not raise, all four result keys are present |
| BackupExtractor.ExtractKeysDict | scripts/extract_backup_data.py:166-182 | on a dictionary root the loop never raises and looks up each key in turn |
| BackupExtractor.ExtractDict | scripts/extract_backup_data.py:149-184 | on a dictionary root the extraction is the four lookups of `ExtractFromDict` |
| BackupExtractor.RecoverFour | scripts/extract_backup_data.py:159-182 | the loop over the four key pairs is four single-key updates in order |
| BackupExtractor.ExtractNonDict | scripts/extract_backup_data.py:166-167 | on a root that is not a dictionary the extraction either raises or returns the four empty lists |
| BackupExtractor.ExtractScalarRaises | scripts/extract_backup_data.py:167 | a number, boolean, date or bytes root makes `in` raise |
| BackupExtractor.RecoverValue | scripts/extract_backup_data.py:167-182 | the branch for a present key yields `Recover`: bytes decoded as JSON, else as a property list, else left as the empty list; a list taken as it is |
| BackupExtractor.ExtractQuickmemoData | scripts/extract_backup_data.py:149-184 | the method computes `ExtractSpec`, including the cases that raise |
| BackupExtractor.MergeValue | scripts/extract_backup_data.py:340-341 | `extend` keeps what was there as a prefix, and with a list appends its items |
| BackupExtractor.MergeKeys | scripts/extract_backup_data.py:339-341 | merging keeps the same result keys |
| BackupExtractor.MergeKeysAppends | scripts/extract_backup_data.py:339-341 | each merged list keeps its earlier contents as a prefix |
| BackupExtractor.MergeExtracted | scripts/extract_backup_data.py:339-341 | the merge loop over the four result keys computes `MergeKeys` |
| BackupExtractor.MergeFiles | scripts/extract_backup_data.py:327-341 | merging the found files keeps the same result keys |
| BackupExtractor.MergeFilesAppends | scripts/extract_backup_data.py:327-341 | data merged from earlier files stays, as a prefix, after the later files |
| BackupExtractor.MergeIgnoresNonCandidates | scripts/extract_backup_data.py:328-331 | directories and files not ending in `.plist` never change the merged data |
| BackupExtractor.Candidates | scripts/extract_backup_data.py:328-331 | only non-directory `.plist` results of the search are read |
| BackupExtractor.EmptyRecords | scripts/extract_backup_data.py:320-325 | merging starts from the four keys with empty lists |
| BackupExtractor.ReplaceChar | scripts/extract_backup_data.py:351 | `replace` of one character keeps the length and leaves none of the replaced character |
| BackupExtractor.OutputDirName | scripts/extract_backup_data.py:351 | the output folder is `quickmemo_recovery_` followed by the device name with no space and no slash |
| BackupExtractor.ProcessBackupSpec | scripts/extract_backup_data.py:296-354 | encrypted backups and backups without `Manifest.db` are skipped; no files found exactly when the index search finds none; no data exactly when the merge of the found files succeeds with every list empty; what is saved is that merge, under the folder named from the device name, and a merge with some item, a printable summary and a string device name is saved |
| BackupExtractor.MergeFoundFile | scripts/extract_backup_data.py:328-341 | one pass of the file loop computes `MergeFile` |
| BackupExtractor.MergeFoundFiles | scripts/extract_backup_data.py:320-341 | the file loop computes `MergeFiles` from the empty records |
| BackupExtractor.ProcessBackup | scripts/extract_backup_data.py:296-354 | the body of the per-backup loop computes `ProcessBackupSpec` |
| BackupExtractor.ProcessAll | scripts/extract_backup_data.py:296-354 | every backup gets an outcome unless an uncaught error stops the run early |
| BackupExtractor.ProcessAllStops | scripts/extract_backup_data.py:296-354 | once an uncaught error stopped the run, later backups change nothing |
| BackupExtractor.ProcessAllOutcomes | scripts/extract_backup_data.py:296-354 | the k-th outcome is the k-th backup's own outcome, and only the last one can be a crash |
| BackupExtractor.ProcessAllComplete | scripts/extract_backup_data.py:296-354 | when no backup raises, every backup is processed |
| BackupExtractor.RunSpec | scripts/extract_backup_data.py:269-293 | with `--list-only` nothing is processed |
| BackupExtractor.ProcessBackups | scripts/extract_backup_data.py:296-354 | the loop over the backups found computes `ProcessAll`: one outcome per backup, in order, stopping at the first uncaught error |
| BackupExtractor.Run | scripts/extract_backup_data.py:237-357 | `main` computes `RunSpec`: backups found under each base in order, then each processed unless listing only |
| BackupExtractor.CollectAllFails | scripts/extract_backup_data.py:270-273 | once listing a base directory raises, the whole run fails |
| AIModels.TotalRemove | quickMemoApp/Models/AIModels.swift:243-256 | the sum of a counter map splits into one key's value plus the sum of the rest |
| AIModels.TotalUpdate | quickMemoApp/Models/AIModels.swift:243-256 | overwriting one counter changes the sum by the difference between the new and the old value |
| AIModels.Bump | quickMemoApp/Models/AIModels.swift:108 | `requestsByType[type, default: 0] += 1` adds the key if missing and leaves every other key's count alone |
| AIModels.BumpTotal | quickMemoApp/Models/AIModels.swift:108 | a bump raises the bumped key's count (from 0 when missing) and the sum of all counts by exactly one |
| AIModels.UsageStats.constructor | quickMemoApp/Models/AIModels.swift:97-104 | new statistics have no requests, no per-type counts and no tokens, the given monthly limit (100 by default) and the current date as reset date |
| AIModels.UsageStats.RecordUsage | quickMemoApp/Models/AIModels.swift:106-111 | recording a request adds one request, one for its type and its tokens, and keeps the invariant that the per-type counts sum to the total |
| AIModels.UsageStats.ResetIfNeeded | quickMemoApp/Models/AIModels.swift:113-125 | within the same month nothing changes; in a new month the counters are zeroed and the reset date becomes now; the limit never changes |
| AIModels.UsageStats.RemainingRequests | quickMemoApp/Models/AIModels.swift:127-129 | the remaining quota is never negative: the limit minus the requests made, or zero once they reach it |
| AIModels.UsageStats.IsQuotaExceeded | quickMemoApp/Models/AIModels.swift:131-133 | the quota is exceeded exactly when no request remains |
| AIModels.NewLogEntry | quickMemoApp/Models/AIModels.swift:154-178 | a log entry's total tokens are its input plus output tokens, and every other field is the one given |
| AIModels.Recent | quickMemoApp/Models/AIModels.swift:219-223 | keeping the newest `cap` entries returns a suffix of at most `cap` entries, the whole log when it fits and exactly `cap` otherwise |
| AIModels.RecentAppend | quickMemoApp/Models/AIModels.swift:216-224 | after appending, the kept log ends with the new entry and holds at most `cap` entries |
| AIModels.StatsPartition | quickMemoApp/Models/AIModels.swift:243-272 | the per-key counts sum to the number of logs and the per-key tokens to the total tokens; each key present counts exactly its logs, and a key absent has none |
| AIModels.StatsTotals | quickMemoApp/Models/AIModels.swift:243-272 | the per-key counts and tokens add up to the number of logs and their total tokens |
| AIModels.CountsUpdate | quickMemoApp/Models/AIModels.swift:247-254 | updating one key's statistics updates only that key's count |
| AIModels.TokensUpdate | quickMemoApp/Models/AIModels.swift:247-254 | updating one key's statistics updates only that key's tokens |
| AIModels.StatsCountTotal | quickMemoApp/Models/AIModels.swift:243-256 | every log is counted once: the per-key counts sum to the number of logs |
| AIModels.StatsTokenTotal | quickMemoApp/Models/AIModels.swift:243-256 | the per-key tokens sum to the tokens of all logs |
| AIModels.StatsCountKeys | quickMemoApp/Models/AIModels.swift:243-256 | a key is present exactly when some log has it, with the number of such logs as its count |
| AIModels.UsageHistory.constructor | quickMemoApp/Models/AIModels.swift:211-213 | a new history is empty |
| AIModels.UsageHistory.AddLog | quickMemoApp/Models/AIModels.swift:216-224 | the history becomes the newest 1000 entries of the old history plus the entry, which is its last |
| AIModels.UsageHistory.StatsBy | quickMemoApp/Models/AIModels.swift:243-272 | the counting loop computes the statistics of all logs grouped by the given key |
| AIModels.UsageHistory.StatsByRequestType | quickMemoApp/Models/AIModels.swift:243-256 | the statistics grouped by request type |
| AIModels.UsageHistory.StatsByProvider | quickMemoApp/Models/AIModels.swift:258-272 | the statistics grouped by provider |
| AIModels.AvailableModels | quickMemoApp/Models/AIModels.swift:342-367 | each provider offers at least one model, all of that provider and with distinct ids |
| AIModels.FirstWithId | quickMemoApp/Models/AIModels.swift:419-421 | `first(where:)` finds nothing exactly when no model has the id, and otherwise the first model that has it |
| AIModels.GetModel | quickMemoApp/Models/AIModels.swift:414-421 | a selection resolves to a model of its own provider with its own id, and to nothing exactly when the provider offers no such id |
| AIModels.DefaultPreferences | quickMemoApp/Models/AIModels.swift:400-411 | the three default selections each resolve to a model |
| CalendarLogger.LogLevel.Color | quickMemoApp/Services/CalendarLogger.swift:25-32 | every level's colour is a `#RRGGBB` string |
| CalendarLogger.ParseLevel | quickMemoApp/Services/CalendarLogger.swift:19-23 | a raw value decodes only to the level whose raw value it is |
| CalendarLogger.ParseRawValue | quickMemoApp/Services/CalendarLogger.swift:19-23 | every level's raw value decodes back to that level |
| CalendarLogger.ColorInjective | quickMemoApp/Services/CalendarLogger.swift:25-32 | no two levels share a colour |
| CalendarLogger.Capped | quickMemoApp/Services/CalendarLogger.swift:51-53 | `prefix(maxLogs)` keeps the first entries: all of them up to 100, exactly 100 otherwise |
| CalendarLogger.LevelCountsSum | quickMemoApp/Services/CalendarLogger.swift:19-23 | every entry has exactly one of the four levels, so the per-level counts add up to the number of entries |
| CalendarLogger.RecentErrors | quickMemoApp/Services/CalendarLogger.swift:94 | the first ten error entries of the log in log order, all of them when there are fewer |
| CalendarLogger.Percent | quickMemoApp/Services/CalendarLogger.swift:115 | the rate is the percentage the part is of the whole: rate × whole = part × 100 |
| CalendarLogger.DiagnosticReport | quickMemoApp/Services/CalendarLogger.swift:88-120 | the report lists the first ten error entries in log order, counts every error and every success of the log, counts as operations the entries whose message mentions creating or updating an event, and has a success rate, successes as a percentage of operations, exactly when some operation was logged |
| CalendarLogger.CalendarLogger.constructor | quickMemoApp/Services/CalendarLogger.swift:80-85 | the log starts as the stored entries, or empty when none decode |
| CalendarLogger.CalendarLogger.Log | quickMemoApp/Services/CalendarLogger.swift:40-55 | a new entry goes first and the older entries follow in order, the log capped at 100 |
| CalendarLogger.CalendarLogger.ClearLogs | quickMemoApp/Services/CalendarLogger.swift:67-72 | clearing leaves no entries |
| CategoryManagement.TrimAll | quickMemoApp/Views/CategoryManagementView.swift:283 | every piece is trimmed of white space and newlines, in place |
| CategoryManagement.ParseTags | quickMemoApp/Views/CategoryManagementView.swift:281-284 | every parsed tag is non-empty, has no surrounding white space and no comma |
| CategoryManagement.TrimHasNoNewChars | quickMemoApp/Views/CategoryManagementView.swift:283 | trimming never introduces a character |
| CategoryManagement.Spaced | quickMemoApp/Views/CategoryManagementView.swift:318 | the pieces of a `", "` join split on commas are the first tag and then each later tag led by a space |
| CategoryManagement.JoinSpaced | quickMemoApp/Views/CategoryManagementView.swift:318 | joining with `", "` is joining the space-led pieces with `","` |
| CategoryManagement.JoinHead | quickMemoApp/Views/CategoryManagementView.swift:318 | a prefix on the first piece is a prefix of the join |
| CategoryManagement.TrimLeadingSpace | quickMemoApp/Views/CategoryManagementView.swift:283 | trimming a space-led trimmed tag gives back the tag |
| CategoryManagement.SplitSpaced | quickMemoApp/Views/CategoryManagementView.swift:282 | splitting the `", "` join of well-formed tags on commas gives the space-led pieces |
| CategoryManagement.TrimSpaced | quickMemoApp/Views/CategoryManagementView.swift:283 | trimming the space-led pieces gives the tags back |
| CategoryManagement.ParseTagsJoined | quickMemoApp/Views/CategoryManagementView.swift:313-318 | the edit sheet shows default tags joined by `", "`, and saving that text unchanged parses back to the same tags |
| CategoryManagement.NextOrder | quickMemoApp/Views/CategoryManagementView.swift:287 | the new order is one more than the largest existing order, 0 without categories, so it exceeds every order |
| CategoryManagement.AddCategory | quickMemoApp/Views/CategoryManagementView.swift:270-298 | adding is refused, with the duplicate-name message, exactly when a category already has the trimmed name; otherwise the new category has the trimmed name, the chosen icon and colour, the parsed tags and an order above every other |
| CategoryManagement.SaveCategory | quickMemoApp/Views/CategoryManagementView.swift:419-450 | saving is refused exactly when the trimmed name changed and renaming is not allowed, with the fixed-name message for the catch-all category and the duplicate message otherwise; the catch-all keeps its name; identity and order are kept and icon, colour and parsed tags are taken |
| CategoryManagement.PickedKept | quickMemoApp/Views/CategoryManagementView.swift:87 | the rows picked by the drag and the rows left together are the original rows |
| CategoryManagement.Regroup | quickMemoApp/Views/CategoryManagementView.swift:87 | regrouping the parts before and after the destination keeps every row once |
| CategoryManagement.MoveOffsets | quickMemoApp/Views/CategoryManagementView.swift:87 | `move(fromOffsets:toOffset:)` keeps the length and the rows: a permutation |
| CategoryManagement.MovePermutes | quickMemoApp/Views/CategoryManagementView.swift:87 | rows kept before the destination, then the moved rows, then the rows kept after, are a permutation of the list |
| CategoryManagement.SetOrderOfFirst | quickMemoApp/Views/CategoryManagementView.swift:91-92 | setting the order of the first category with an id keeps the number of categories |
| CategoryManagement.AssignOrders | quickMemoApp/Views/CategoryManagementView.swift:90-94 | the order loop keeps the number of categories |
| CategoryManagement.AssignOrdersSpec | quickMemoApp/Views/CategoryManagementView.swift:90-94 | with distinct ids, after n rounds a category listed among the first n has its listed position as order, any other keeps its order, and nothing but orders changes |
| CategoryManagement.SetOrderOfFirstSpec | quickMemoApp/Views/CategoryManagementView.swift:91-92 | with distinct ids only the category with that id changes, and only its order |
| CategoryManagement.MovedOrdersArePositions | quickMemoApp/Views/CategoryManagementView.swift:85-97 | after a move every category's order is its position in the reordered list |
| CategoryManagement.FirstDeletable | quickMemoApp/Views/CategoryManagementView.swift:108-116 | the row chosen is the first selected row whose category can be deleted; none when no selected row can |
| CategoryManagement.CategoryManagementView.constructor | quickMemoApp/Views/CategoryManagementView.swift:10-11 | no category is awaiting deletion and no alert is shown |
| CategoryManagement.CategoryManagementView.MoveCategories | quickMemoApp/Views/CategoryManagementView.swift:85-97 | the categories get as orders their positions in the dragged order-sorted list; memos do not change |
| CategoryManagement.CategoryManagementView.WriteOrders | quickMemoApp/Views/CategoryManagementView.swift:90-94 | the loop computes `AssignOrders` over the whole reordered list and leaves memos alone |
| CategoryManagement.CategoryManagementView.DeleteCategories | quickMemoApp/Views/CategoryManagementView.swift:106-117 | the first deletable selected category of the order-sorted list is offered for deletion with the alert shown; when none is, nothing changes |
| CoreDataEntities.CastTags | quickMemoApp/Models/CoreDataEntities.swift:19 | a stored tag object that is a string array gives those strings; anything else gives no tags |
| CoreDataEntities.StoreTags | quickMemoApp/Models/CoreDataEntities.swift:38 | tags stored this way read back unchanged, and no tags are stored as no object |
| CoreDataEntities.QuickMemoEntity.ToQuickMemo | quickMemoApp/Models/CoreDataEntities.swift:18-31 | a missing id becomes a fresh one, a missing title empty, missing dates now, and non-array tags none; every other attribute is copied |
| CoreDataEntities.QuickMemoEntity.Update | quickMemoApp/Models/CoreDataEntities.swift:33-43 | storing a memo whose duration fits 32 bits and converting it back gives the same memo, whatever fresh id and date the conversion is given |
| CoreDataEntities.CategoryEntity.ToCategory | quickMemoApp/Models/CoreDataEntities.swift:57-67 | a missing id becomes a fresh one and non-array default tags none; name, icon, colour and order are copied |
| CoreDataEntities.CategoryEntity.Update | quickMemoApp/Models/CoreDataEntities.swift:69-76 | storing a category whose order fits 32 bits and converting it back gives the same category |
| CoreDataModels.QuickMemoEntity.ToQuickMemo | quickMemoApp/Models/CoreDataModels.swift:32-42 | missing content is empty, a missing category is その他, missing tags are none and missing dates now; title and duration take their defaults |
| CoreDataModels.QuickMemoEntity.Update | quickMemoApp/Models/CoreDataModels.swift:44-52 | storing a memo and converting it back gives the memo with its title emptied and its duration reset, since neither is stored |
| CoreDataModels.CategoryEntity.ToCategory | quickMemoApp/Models/CoreDataModels.swift:60-69 | a missing name is empty, a missing icon `folder`, a missing colour `#8E8E93` and missing tags none |
| CoreDataModels.CategoryEntity.Update | quickMemoApp/Models/CoreDataModels.swift:71-78 | storing a category whose order fits 32 bits and converting it back gives the same category |
| DataManager.DefaultCategories | quickMemoApp/Services/DataManager.swift:141-147 | there are five default categories, 仕事, プライベート, アイデア, 人物 and その他, each with its icon, colour and four tags, and the i-th has order i and a fresh id |
| DataManager.AllTagsMembers | quickMemoApp/Services/DataManager.swift:133 | a tag is in the flattened list exactly when some memo has it |
| DataManager.SearchFiltersCounts | quickMemoApp/Services/DataManager.swift:101-127 | the chained filters keep every occurrence of a memo that meets every criterion given, and no occurrence of any other |
| DataManager.CategoryFiltersCounts | quickMemoApp/Services/DataManager.swift:78-89 | the category and text filters keep every occurrence of a matching memo, and no occurrence of any other |
| DataManager.SearchFiltersMembers | quickMemoApp/Services/DataManager.swift:101-127 | the chained filters keep exactly the memos that meet every criterion given, and never add one |
| DataManager.DataManager.constructor | quickMemoApp/Services/DataManager.swift:13-37 | memos are the stored ones or none; categories are the stored ones, or the five defaults when none are stored |
| DataManager.DataManager.AddMemo | quickMemoApp/Services/DataManager.swift:53-56 | the memo is appended and categories do not change |
| DataManager.DataManager.DeleteMemo | quickMemoApp/Services/DataManager.swift:58-61 | every memo with the id is removed and each other memo is kept as often as before, in order |
| DataManager.DataManager.UpdateMemo | quickMemoApp/Services/DataManager.swift:63-68 | the first memo with the same id is replaced; with no such memo nothing changes |
| DataManager.DataManager.GetCategory | quickMemoApp/Services/DataManager.swift:72-74 | the category returned is in the list and has the name; nothing is returned exactly when no category has it |
| DataManager.DataManager.FilteredMemos | quickMemoApp/Services/DataManager.swift:78-92 | a memo is listed exactly when it is stored, is in the category (unless すべて) and contains the search text (unless empty), newest first |
| DataManager.DataManager.SearchMemos | quickMemoApp/Services/DataManager.swift:94-130 | a memo is listed exactly when it is stored and meets each non-empty criterion: text, category set, every tag, start and end date; it is listed as often as it is stored; newest first |
| DataManager.DataManager.GetAllTags | quickMemoApp/Services/DataManager.swift:132-135 | the tags are strictly ascending, so without repeats, and are exactly the tags some memo has |
| DataManager.DataManager.InitializeDefaultCategories | quickMemoApp/Services/DataManager.swift:139-152 | with no categories the five defaults are installed; otherwise nothing changes |
| DataModels.NewMemo | quickMemoApp/Models/DataModels.swift:13-21 | a new memo has a fresh id, both timestamps equal to now and no calendar event |
| DataModels.NewCategory | quickMemoApp/Models/DataModels.swift:42-49 | a new category has a fresh id and the given attributes |
| Csv.DoubleQuotes | quickMemoApp/Services/ExportManager.swift:410 | doubling the quotes never shortens a field and adds no character other than the quote |
| Csv.EscapeField | quickMemoApp/Services/ExportManager.swift:407-414 | a field without comma, quote or line feed is written as is; any other is wrapped in quotes; escaping adds no character other than the quote |
| Csv.Scan | quickMemoApp/Services/ExportManager.swift:811-840 | scanning only appends fields, at least one more than it started with |
| Csv.ScanCount | quickMemoApp/Services/ExportManager.swift:811-840 | scanning closes one field per comma met outside quotes, plus the field being built, with a doubled quote inside quotes leaving the quoted state unchanged |
| Csv.ParseLine | quickMemoApp/Services/ExportManager.swift:811-840 | a line always parses to at least one field, and to exactly one more field than it has commas outside quotes (every quote flips the quoted state) |
| Csv.ParseCsvLine | quickMemoApp/Services/ExportManager.swift:811-840 | the character loop with its quote state computes `ParseLine` |
| Csv.ScanPlain | quickMemoApp/Services/ExportManager.swift:828-833 | outside quotes a field with no quote and no comma is read character by character into the current field |
| Csv.ScanQuoted | quickMemoApp/Services/ExportManager.swift:821-827 | inside quotes, a field with doubled quotes followed by the closing quote is read back as the original field |
| Csv.ScanQuotedCons | quickMemoApp/Services/ExportManager.swift:821-833 | reading one more character of a quoted field keeps the quoted reading correct |
| Csv.DoubleQuotesQuote | quickMemoApp/Services/ExportManager.swift:410 | a leading quote is written as two quotes |
| Csv.DoubleQuotesOther | quickMemoApp/Services/ExportManager.swift:410 | any other leading character is written as is |
| Csv.ScanClosingQuote | quickMemoApp/Services/ExportManager.swift:821-827 | a quote not followed by another leaves the quoted state |
| Csv.ScanDoubledQuote | quickMemoApp/Services/ExportManager.swift:822-824 | inside quotes a doubled quote is read as one literal quote |
| Csv.ScanQuotedChar | quickMemoApp/Services/ExportManager.swift:831-833 | inside quotes every other character, commas included, belongs to the field |
| Csv.ScanField | quickMemoApp/Services/ExportManager.swift:407-414 | an escaped field followed by a comma or the end of the line is read back as the field |
| Csv.EscapeRow | quickMemoApp/Services/ExportManager.swift:178-187 | a row of two or more escaped values is separated by commas |
| Csv.ParseEscapeRow | quickMemoApp/Services/ExportManager.swift:407-414 | scanning a row of escaped fields appends exactly those fields |
| Csv.ParseLineEscapeRow | quickMemoApp/Services/ExportManager.swift:407-414 | parsing a line written by escaping every field gives the fields back, whatever they contain |
| Csv.ScanUnquoted | quickMemoApp/Services/ExportManager.swift:811-840 | text without quotes scans as its pieces between commas |
| Csv.ScanUnquotedCons | quickMemoApp/Services/ExportManager.swift:828-833 | one unquoted character either closes the field (a comma) or extends it |
| Csv.SplitOnCons | quickMemoApp/Services/ExportManager.swift:828-830 | splitting on commas: the first character either separates or starts the first piece |
| Csv.ParseLineUnquoted | quickMemoApp/Services/ExportManager.swift:811-840 | a line without quotes parses to exactly its comma-separated pieces |
| ExportManager.MemosToExport | quickMemoApp/Services/ExportManager.swift:40-45 | the memos given, else the stored memos, are exported; an empty list is refused with `noData` |
| ExportManager.RowValues | quickMemoApp/Services/ExportManager.swift:177-187 | a memo's row has nine values |
| ExportManager.RowAsWrittenSplitsTags | quickMemoApp/Services/ExportManager.swift:181-187 | a memo whose one tag is `a,b`, written as the exporter writes it, reads back as ten fields with `a` as its tags cell |
| ExportManager.EscapeRowPlainCons | quickMemoApp/Services/ExportManager.swift:407-414 | a cell needing no quotes is written as is before the comma and the rest of the row |
| ExportManager.MemoFromFields | quickMemoApp/Services/ExportManager.swift:784-804 | the id is the parsed field 0, or a fresh id; title, content and category are fields 1 to 3; empty tags give no tags and others are the `;`-free pieces that re-join to the cell; the creation date is the parsed field 5, or now; a parsed update date is kept, and a missing one gives the creation date; an empty event id gives none and any other is kept; a parsed duration is kept and an unparsable one gives 30 |
| ExportManager.RowRoundTrip | quickMemoApp/Services/ExportManager.swift:177-187 | with every value quoted when needed and formats that read back what they write, a row of a memo whose tags hold no `;` (and are not one empty tag), whose event id is not empty and whose duration fits 64 bits parses to nine fields and back to the same memo |
| Csv.EscapeRowChars | quickMemoApp/Services/ExportManager.swift:407-414 | a written row holds only commas, quotes and characters of its values, so escaping adds no line break |
| ExportManager.RowIsOneLine | quickMemoApp/Services/ExportManager.swift:177-187 | a memo none of whose row values holds a line break is written as one non-empty line |
| ExportManager.TerminatedAppend | quickMemoApp/Services/ExportManager.swift:187 | appending one more row adds it and one line feed at the end |
| ExportManager.TerminatedJoin | quickMemoApp/Services/ExportManager.swift:172-188 | the header line and the rows, each ended by a line feed, are the lines joined by line feeds with an empty last line |
| ExportManager.RowsOf | quickMemoApp/Services/ExportManager.swift:177-188 | one row per memo, in memo order |
| ExportManager.RowsAsWritten | quickMemoApp/Services/ExportManager.swift:177-188 | one row as written per memo, in memo order |
| ExportManager.CreateCsvText | quickMemoApp/Services/ExportManager.swift:168-188 | the text written is the header line followed by each memo's row as the code writes it (tags and event id unquoted) and a line feed, in memo order |
| ExportManager.AppendLines | quickMemoApp/Services/ExportManager.swift:177-188 | the loop appends every row, each followed by a line feed, in order, to the header line |
| ExportManager.EscapeRowSnoc | quickMemoApp/Services/ExportManager.swift:187 | one more value at the end of a row adds a comma and the escaped value |
| ExportManager.EscapeRowNine | quickMemoApp/Services/ExportManager.swift:187 | a nine-value row is the nine escaped values separated by commas |
| ExportManager.RowAsWrittenIsRow | quickMemoApp/Services/ExportManager.swift:177-187 | when the identifier, joined tags, dates, event id and duration need no quotes, the row as written equals the fully escaped row |
| ExportManager.NoNewlineJoin | quickMemoApp/Services/ExportManager.swift:172 | column titles free of line breaks, joined by commas, make one line |
| ExportManager.HeaderOneLine | quickMemoApp/Services/ExportManager.swift:172 | the header holds no line break |
| ExportManager.SplitTerminated | quickMemoApp/Services/ExportManager.swift:768 | splitting the written file at line breaks gives back the header, each row, and an empty last line |
| ExportManager.PresentExactly | quickMemoApp/Services/ExportManager.swift:777-806 | when every line after the header gives a memo, the memos are gathered exactly and in line order |
| ExportManager.RowLinesReadBack | quickMemoApp/Services/ExportManager.swift:777-806 | each written row reads back as its memo; the empty last line gives none |
| ExportManager.RowsFileRoundTrip | quickMemoApp/Services/ExportManager.swift:168-808 | for any one-line header, importing the written file gives back the memos, in order |
| ExportManager.CsvFileRoundTrip | quickMemoApp/Services/ExportManager.swift:168-808 | exporting memos to CSV text and importing the text gives the same memos in the same order, for memos the importer can read back whose row values hold no line break |
| ExportManager.CsvAsWrittenRoundTrip | quickMemoApp/Services/ExportManager.swift:168-188 | the text the code writes imports back as the same memos, in order, when no memo has a line break in a value or a raw cell needing quotes |
| ExportManager.LineMemo | quickMemoApp/Services/ExportManager.swift:778-782 | a line gives a memo exactly when it is non-empty and has at least nine fields |
| ExportManager.LinesMemos | quickMemoApp/Services/ExportManager.swift:777-806 | no more memos than lines |
| ExportManager.LinesMemosStep | quickMemoApp/Services/ExportManager.swift:777-806 | each further line appends its memo, if it gives one |
| ExportManager.ImportCsvText | quickMemoApp/Services/ExportManager.swift:768-771 | fewer than two lines is refused with `noData`, and nothing else is refused |
| ExportManager.LinesMemosOnlyFullRows | quickMemoApp/Services/ExportManager.swift:777-806 | every memo imported comes from a data line after the header that gives it |
| ExportManager.LinesMemosAllFullRows | quickMemoApp/Services/ExportManager.swift:777-806 | every data line after the header that is non-empty with nine fields is imported |
| ExportManager.PresentOnly | quickMemoApp/Services/ExportManager.swift:777-806 | a value gathered from the lines after the header was given by one of those lines |
| ExportManager.PresentAll | quickMemoApp/Services/ExportManager.swift:777-806 | every value given by a line after the header is gathered |
| ExportManager.ImportCsvData | quickMemoApp/Services/ExportManager.swift:763-809 | the method computes `ImportCsvText` on the decoded text |
| ExportManager.ImportCsvLines | quickMemoApp/Services/ExportManager.swift:773-808 | the loop over lines 1 to the end computes `LinesMemos` |
| ExportManager.ImportCsvLine | quickMemoApp/Services/ExportManager.swift:778-805 | the loop body computes `LineMemo` |
| ExportManager.CsvOnUtf8 | quickMemoApp/Services/ExportManager.swift:764-766 | CSV bytes that are not UTF-8 are refused with `encodingError`; otherwise the text is imported as CSV |
| ExportManager.FirstDecodingIsFirst | quickMemoApp/Services/ExportManager.swift:583-589 | decoding fails exactly when every encoding fails, and otherwise the text is that of the first encoding that succeeds |
| ExportManager.DecodeText | quickMemoApp/Services/ExportManager.swift:560-590 | the only failure is `encodingError` |
| ExportManager.DecodeTextDropsBom | quickMemoApp/Services/ExportManager.swift:562-570 | with the UTF-8 byte order mark and valid UTF-8 after it, the text is the UTF-8 decoding of what follows the mark |
| ExportManager.DecodeTextData | quickMemoApp/Services/ExportManager.swift:560-590 | the loop over the encodings computes `DecodeText` |
| ExportManager.ImportText | quickMemoApp/Services/ExportManager.swift:592-607 | blank text is refused with `noData` exactly; otherwise one memo with the trimmed text, in その他, without tags |
| ExportManager.SectionStepKeeps | quickMemoApp/Services/ExportManager.swift:675-706 | one line appends at most itself, when not blank, to the content lines and keeps earlier ones; only a category line changes the category |
| ExportManager.TrimEach | quickMemoApp/Services/ExportManager.swift:692 | each tag is trimmed of spaces, in place |
| ExportManager.SectionMemo | quickMemoApp/Services/ExportManager.swift:708-718 | a section gives no memo exactly when its content is blank; otherwise the memo has the gathered title, category and tags |
| ExportManager.SectionDefaults | quickMemoApp/Services/ExportManager.swift:670-687 | a section with no category line is filed under その他 |
| ExportManager.NoColonNoValue | quickMemoApp/Services/ExportManager.swift:684-687 | a line with no separator gives no value |
| ExportManager.ValueAfterColon | quickMemoApp/Services/ExportManager.swift:684-687 | the value after the only separator is read whole, trimmed of spaces |
| ExportManager.CategoryPrefixes | quickMemoApp/Services/ExportManager.swift:683 | the two category prefixes differ only in the colon, ASCII or full-width |
| ExportManager.CategoryLineKind | quickMemoApp/Services/ExportManager.swift:676-683 | a category line with a plain value is unchanged by trimming and is read as a category line |
| ExportManager.CategoryLineUntrimmed | quickMemoApp/Services/ExportManager.swift:676 | trimming leaves such a line unchanged |
| ExportManager.CategoryLineIsCategory | quickMemoApp/Services/ExportManager.swift:683 | a line with either category prefix is a category line |
| ExportManager.WideCategoryIgnored | quickMemoApp/Services/ExportManager.swift:683-687 | as written, a category line with the full-width colon leaves the gathered fields unchanged, so the category is lost |
| ExportManager.CategoryEitherColon | quickMemoApp/Services/ExportManager.swift:683-687 | corrected, a category line whose prefix ends in either colon sets the category to its value |
| ExportManager.WithAsciiColon | quickMemoApp/Services/ExportManager.swift:683-690 | the correction changes only a prefix's full-width colon to an ASCII one, keeping the length and every other line as it is |
| ExportManager.AsciiPrefixAgrees | quickMemoApp/Services/ExportManager.swift:683-693 | a category or tag line whose prefix ends in ASCII `:` is read alike as written and corrected, whatever the rest holds |
| ExportManager.SectionStepAgrees | quickMemoApp/Services/ExportManager.swift:675-706 | on a line whose category or tag prefix does not end in '：', the step as written and the corrected step agree |
| ExportManager.SectionFoldAgrees | quickMemoApp/Services/ExportManager.swift:669-706 | over lines none of whose prefixes ends in '：', the line loop as written and the corrected one gather the same fields |
| ExportManager.AsWrittenAgreesWithoutWidePrefix | quickMemoApp/Services/ExportManager.swift:665-719 | a section with no category or tag line whose prefix ends in '：' is read into the same memo by the parser as written and the corrected one |
| ExportManager.ParseMarkdownSection | quickMemoApp/Services/ExportManager.swift:665-719 | the method computes the corrected `ParseSection`, which differs from the code as written only on lines whose prefix ends in '：' |
| ExportManager.GatherFields | quickMemoApp/Services/ExportManager.swift:669-706 | the line loop computes the fold of `SectionStep` over all lines |
| ExportManager.SectionText | quickMemoApp/Services/ExportManager.swift:621-643 | a kept section never trims to nothing or to `---`; later sections are kept unchanged exactly when they are not blank or a rule; the first loses its `# ` title line and is dropped when it holds the export header |
| ExportManager.SectionsMemos | quickMemoApp/Services/ExportManager.swift:619-650 | at most one memo per section, each with content |
| ExportManager.SectionsMemosStep | quickMemoApp/Services/ExportManager.swift:621-650 | each further section appends its memo, if it gives one |
| ExportManager.ImportMarkdownText | quickMemoApp/Services/ExportManager.swift:609-663 | blank text is refused with `noData` exactly; otherwise at least one memo, each with content (corrected section parser) |
| ExportManager.MarkdownFallsBackToText | quickMemoApp/Services/ExportManager.swift:652-660 | when no section gives a memo, the import is the plain-text import of the whole text |
| ExportManager.ImportMarkdownData | quickMemoApp/Services/ExportManager.swift:609-663 | the method computes `ImportMarkdownText` (corrected section parser) |
| ExportManager.ParseSections | quickMemoApp/Services/ExportManager.swift:621-650 | the section loop computes `SectionsMemos` (corrected section parser) |
| ExportManager.ParseSectionAt | quickMemoApp/Services/ExportManager.swift:622-649 | the loop body computes the memo of one section |
| ExportManager.ToExportMemo | quickMemoApp/Services/ExportManager.swift:202-214 | the JSON entry always carries the update date and the duration |
| ExportManager.FromExportMemo | quickMemoApp/Services/ExportManager.swift:748-760 | an unreadable id becomes a fresh one, a missing update date the creation date and a missing duration 30; text fields are copied |
| ExportManager.ExportMemoRoundTrip | quickMemoApp/Services/ExportManager.swift:198-215 | an entry written and read back with agreeing formats is the same memo |
| ExportManager.ImportJson | quickMemoApp/Services/ExportManager.swift:742-761 | undecodable data is refused; otherwise one memo per entry, in order |
| ExportManager.JsonRoundTrip | quickMemoApp/Services/ExportManager.swift:198-215 | exporting memos to JSON and importing the file gives the same memos, when encoder and decoder agree |
| ExportManager.Lift | quickMemoApp/Services/ExportManager.swift:538-555 | an importer's result is passed on unchanged, its error wrapped |
| ExportManager.OnText | quickMemoApp/Services/ExportManager.swift:592-593 | undecodable bytes are refused with `encodingError`; otherwise the importer runs on the decoded text |
| ExportManager.FormatOf | quickMemoApp/Services/ExportManager.swift:540-554 | the lower-cased extension `json`, `csv`, or `md`/`markdown` picks that importer, and only then |
| ExportManager.ImportMemos | quickMemoApp/Services/ExportManager.swift:538-555 | the importer named by the extension runs on the data; any other extension is read as plain text; the Markdown branch uses the corrected section parser |
| FastInput.SplitDuration | quickMemoApp/Views/FastInputView.swift:409-421 | a duration splits into parts that add back up to it: minutes alone exactly below an hour, else at least one hour plus 0 or 1 to 59 minutes |
| FastInput.DurationText | quickMemoApp/Views/FastInputView.swift:409-421 | under an hour the minutes and the minutes word; a whole number of hours the hours and the hours word only; otherwise the hours, the hours word, the remaining minutes and the minutes word |
| FastInput.FastInput.constructor | quickMemoApp/Views/FastInputView.swift:10-25 | the category is the one given, else the quick-input category; texts and tags start empty and the duration at 30 minutes |
| FastInput.FastInput.ToggleTag | quickMemoApp/Views/FastInputView.swift:274-289 | a selected tag is removed; an unselected one is added unless a free user is at the tag limit, who gets the alert instead; a free user within the limit stays within it; nothing else changes |
| FastInput.FastInput.UpdateDefaultTags | quickMemoApp/Views/FastInputView.swift:291-296 | when the category exists the selection becomes its first two default tags; otherwise it is kept |
| FastInput.FastInput.SaveMemo | quickMemoApp/Views/FastInputView.swift:298-332 | blank text saves nothing and changes nothing; otherwise one memo is appended with the trimmed text and title, the category, exactly the selected tags and the duration, and the category is recorded as last used |
| FastInput.FastInput.AddNewTag | quickMemoApp/Views/FastInputView.swift:334-353 | a blank tag does nothing; a free user at the limit gets the alert; otherwise the trimmed tag is selected when the category takes it and the alert is shown when it does not; the input is cleared and a free user within the limit stays within it |
| ImportView.AssignCategory | quickMemoApp/Views/ImportView.swift:248-256 | memos in その他 or in no category move to the chosen category and all others are unchanged; with a real chosen category none is left unassigned |
| ImportView.AssignCategoryIdempotent | quickMemoApp/Views/ImportView.swift:248-256 | applying the substitution twice is the same as once |
| ImportView.ImportAllowance | quickMemoApp/Views/ImportView.swift:269-284 | everything is imported when it fits under the limit (100 free, `Int.max` Pro); otherwise as many as fill the limit exactly; the limit error comes exactly when the limit is already reached |
| ImportView.FreeImportStaysWithinLimit | quickMemoApp/Views/ImportView.swift:269-284 | a free user's import never takes the memo count past 100 |
| ImportView.Recreated | quickMemoApp/Views/ImportView.swift:289-299 | an imported memo is added under a new id with both dates now and no calendar event, keeping its title, content, category, tags and duration |
| ImportView.RecreatedAll | quickMemoApp/Views/ImportView.swift:287-301 | each memo is recreated in order, the i-th under the i-th new id |
| ImportView.ImportView.constructor | quickMemoApp/Views/ImportView.swift:10-17 | nothing imported, その他 chosen, no error, progress or success shown |
| ImportView.ImportView.LoadFile | quickMemoApp/Views/ImportView.swift:233-264 | memos read are kept with the category substitution applied; a failed read keeps the old memos and shows its error; the progress flag ends off |
| ImportView.ImportView.PerformImport | quickMemoApp/Views/ImportView.swift:266-306 | the allowed prefix of the imported memos is appended, recreated, and counted with success shown; with no room nothing is added and the limit error is shown; a free user within the limit stays within it |
| Localization.Prefix2 | quickMemoApp/Utils/LocalizationManager.swift:37 | the first two characters of a language identifier, or the whole of a shorter one |
| Localization.DeviceLanguage | quickMemoApp/Utils/LocalizationManager.swift:34-48 | the device language is always one of ja, en, zh-Hans; ja when the device lists no language; else chosen by the first two letters of the first preference, English for anything unsupported |
| Localization.RegionalVariants | quickMemoApp/Utils/LocalizationManager.swift:37-45 | any regional variant (ja-JP, en-GB, zh-Hant-TW …) selects its base supported language |
| Localization.LanguageName | quickMemoApp/Utils/LocalizationManager.swift:112-125 | ja, en and zh-Hans are shown by their native names 日本語, English and 中文（简体）; the device setting is shown with its localized label; an unsupported code is shown as itself |
| Localization.LocalizationManager.constructor | quickMemoApp/Utils/LocalizationManager.swift:20-32 | a stored fixed language is used as is; a stored "device" or empty setting follows the device language |
| Localization.LocalizationManager.SetLanguage | quickMemoApp/Utils/LocalizationManager.swift:62-97 | the choice is remembered; "device" follows the device language, any other code becomes the current language |
| Localization.ConfigKeysAreTheKeys | quickMemoApp/Utils/LocalizationManager.swift:198-229 | the listed keys are exactly the keys of the built-in category table |
| Localization.NameOfIsNamesOf | quickMemoApp/Utils/LocalizationManager.swift:255 | a name belongs to a key exactly when it is among the key's localized names or is the key |
| Localization.WorkDisjoint | quickMemoApp/Utils/LocalizationManager.swift:199-228 | no name of "work" is a name of any other built-in category |
| Localization.PersonalDisjoint | quickMemoApp/Utils/LocalizationManager.swift:205-228 | no name of "personal" is a name of idea, people or other |
| Localization.IdeaDisjoint | quickMemoApp/Utils/LocalizationManager.swift:211-228 | no name of "idea" is a name of people or other |
| Localization.PeopleDisjoint | quickMemoApp/Utils/LocalizationManager.swift:217-228 | no name of "people" is a name of "other" |
| Localization.NameOfUnique | quickMemoApp/Utils/LocalizationManager.swift:198-229 | no name belongs to two different keys, so the base key of a name is unambiguous |
| Localization.FirstKeyFor | quickMemoApp/Utils/LocalizationManager.swift:253-260 | the loop returns a key of the walked list that the name belongs to, and nothing only when no walked key claims the name |
| Localization.BaseKey | quickMemoApp/Utils/LocalizationManager.swift:253-260 | the base key, when found, claims the name; none is found exactly when no key claims it |
| Localization.BaseKeyAnyOrder | quickMemoApp/Utils/LocalizationManager.swift:254 | whatever order the dictionary is walked in, the base key found is the same |
| Localization.BaseKeyOfKey | quickMemoApp/Utils/LocalizationManager.swift:253-260 | every built-in key is its own base key |
| Localization.LocalizedName | quickMemoApp/Utils/LocalizationManager.swift:233-241 | a known name or key is shown as its base key localized; any other name is shown unchanged |
| Localization.KeyBranchUnreachable | quickMemoApp/Utils/LocalizationManager.swift:237-239 | the second branch of getLocalizedName is dead: a built-in key is always found by the base-key lookup first |
| Localization.DefaultCategories | quickMemoApp/Utils/LocalizationManager.swift:243-247 | one entry per default key in order (work, personal, idea, people), each with its localized name and its table colour |
| Localization.AllLocalizedVariants | quickMemoApp/Utils/LocalizationManager.swift:262-266 | the variants are exactly the key and, for a built-in key, all its localized names |
| Localization.VariantsLeadBack | quickMemoApp/Utils/LocalizationManager.swift:253-266 | every variant of a built-in key maps back to that key through the base-key lookup |
| Localization.ColorHex | quickMemoApp/Utils/LocalizationManager.swift:268-270 | the table colour of a built-in key, else the grey fallback #8E8E93 |
| Localization.IconName | quickMemoApp/Utils/LocalizationManager.swift:272-274 | the table icon of a built-in key, else "folder" |
| Localization.DefaultTagKeys | quickMemoApp/Utils/LocalizationManager.swift:276-278 | the table's default tag keys of a built-in key, else none |
| Localization.DefaultQuickCategoryKeys | quickMemoApp/Utils/LocalizationManager.swift:280-282 | the first three default keys: work, personal, idea |
| MemoArrange.CustomPromptManager.constructor | quickMemoApp/Views/MemoArrangeView.swift:22-31 | the saved prompts are the decoded stored list, or none when nothing could be decoded |
| MemoArrange.CustomPromptManager.CanAddMore | quickMemoApp/Views/MemoArrangeView.swift:58-60 | more prompts may be added exactly while fewer than three are saved |
| MemoArrange.CustomPromptManager.AddPrompt | quickMemoApp/Views/MemoArrangeView.swift:39-44 | a prompt is appended exactly when fewer than three are saved, otherwise nothing changes and false is returned; the limit of three is kept |
| MemoArrange.CustomPromptManager.UpdatePrompt | quickMemoApp/Views/MemoArrangeView.swift:46-51 | only the first prompt with the same identifier is replaced; with no such prompt nothing changes; the count never changes |
| MemoArrange.CustomPromptManager.DeletePrompt | quickMemoApp/Views/MemoArrangeView.swift:53-56 | every prompt with the identifier is removed and every other prompt is kept, as often as before and in order |
| MemoArrange.PresetKeysHaveInstructions | quickMemoApp/Services/AIManager.swift:420-428 | every preset the arrange screen offers has a built-in instruction |
| MemoArrange.CanArrange | quickMemoApp/Views/MemoArrangeView.swift:382-384 | arranging is possible exactly when a preset, a saved prompt or typed text is chosen |
| MemoArrange.ResolveInstruction | quickMemoApp/Views/MemoArrangeView.swift:398-411 | typed text wins and is sent as typed; otherwise a saved prompt that still exists is sent with its own instruction; otherwise a known preset is sent with its built-in instruction; nothing is sent exactly when none of these applies |
| MemoArrange.OfferedChoiceResolves | quickMemoApp/Views/MemoArrangeView.swift:386-411 | any choice the screen offers (typed text, an offered preset, an existing saved prompt) yields an instruction |
| MemoArrange.ArrangeMemoAsWritten | quickMemoApp/Views/MemoArrangeView.swift:398-411 | as written the spinner is raised on every press, even when no instruction is found and nothing is sent |
| MemoArrange.DeletedPromptLeavesSpinner | quickMemoApp/Views/MemoArrangeView.swift:398-411 | choosing a saved prompt that has since been deleted: the button is enabled, the press sends nothing, and the button is then disabled for good |
| MemoArrange.ArrangeMemo | quickMemoApp/Views/MemoArrangeView.swift:398-411 | corrected: the spinner is raised exactly when an instruction is sent, and the instruction is the resolved one |
| MemoArrange.ArrangeMemoNeverStuck | quickMemoApp/Views/MemoArrangeView.swift:398-411 | corrected: a press that sends nothing leaves the button usable |
| MemoArrange.ContextSection | quickMemoApp/Views/MemoArrangeView.swift:736 | an empty context adds nothing; otherwise the section is exactly the fixed "追加コンテキスト" heading followed by the context, unchanged |
| MemoArrange.TemplateHead | quickMemoApp/Views/MemoArrangeView.swift:738-816 | every template's opening text ends with a line break, so the memo content starts on a line of its own |
| MemoArrange.TemplateTail | quickMemoApp/Views/MemoArrangeView.swift:738-816 | every template's closing text starts with a blank line, so it is separated from the content or the context |
| MemoArrange.Parts4 | quickMemoApp/Views/MemoArrangeView.swift:738-816 | a four-part concatenation holds each part at its offset |
| MemoArrange.GeneratePrompt | quickMemoApp/Views/MemoArrangeView.swift:735-819 | every template's prompt is its fixed head, the memo content unchanged, the context section and its fixed tail, in that order |
| NotificationManager.QuietMinuteIsClockWalk | quickMemoApp/Services/NotificationManager.swift:339-346 | the quiet test, with its midnight-crossing branch, is the same as: the minute is reached from the start in fewer clockwise steps than the end is |
| NotificationManager.EmptyWindow | quickMemoApp/Services/NotificationManager.swift:339-346 | a window whose start and end are the same minute silences nothing |
| NotificationManager.IsInQuietModeWithParams | quickMemoApp/Services/NotificationManager.swift:318-347 | never quiet while quiet mode is off; otherwise quiet exactly when the date's minute of day falls in the start–end window |
| NotificationManager.CandidateClosedForm | quickMemoApp/Services/NotificationManager.swift:230-236 | after k steps the loop's current time is now plus k intervals of minutes |
| NotificationManager.UnquietAreCandidates | quickMemoApp/Services/NotificationManager.swift:230-244 | every collected date is one of the first n candidates and is not quiet, and at most n are collected |
| NotificationManager.UnquietIncreasing | quickMemoApp/Services/NotificationManager.swift:230-244 | with a positive interval the collected dates are strictly increasing and lie after now and no later than the last candidate |
| NotificationManager.NextNotificationDates | quickMemoApp/Services/NotificationManager.swift:223-255 | the loop keeps exactly the non-quiet candidates of the steps it took, at most 64 of them in at most 1000 steps, and stops only at 64 dates, 1000 steps or the first candidate more than a week ahead |
| NotificationManager.RequestIdInjective | quickMemoApp/Services/NotificationManager.swift:285 | two different indices never give the same request identifier |
| NotificationManager.Requests | quickMemoApp/Services/NotificationManager.swift:273-287 | one request per date, in order, the i-th identified by the prefix and i |
| NotificationManager.ScheduleInBackground | quickMemoApp/Services/NotificationManager.swift:208-305 | at most 64 requests, numbered from 0, none firing in quiet hours; with a positive interval all fire after now in strictly increasing order |
| NotificationManager.BuildRequests | quickMemoApp/Services/NotificationManager.swift:273-287 | the enumeration loop builds exactly one numbered request per date |
| NotificationManager.NotificationManager.constructor | quickMemoApp/Services/NotificationManager.swift:12-26 | after `loadSettings` the switches are the stored ones, the interval is the stored one or 30 minutes when zero, and missing quiet times default to `clockTime(22, 0)` and `clockTime(7, 0)`, the dates built from hour and minute components alone |
| NotificationManager.NotificationManager.LoadSettings | quickMemoApp/Services/NotificationManager.swift:92-122 | a missing or zero interval becomes 30 minutes; missing quiet times become `clockTime(22, 0)` and `clockTime(7, 0)`, the dates built from hour and minute components alone, with no day given; the flags are read as stored |
| NotificationManager.NotificationManager.IsInQuietMode | quickMemoApp/Services/NotificationManager.swift:307-316 | quiet only with quiet mode on, and then exactly when the window test on the current settings says so |
| NotificationManager.NotificationManager.ScheduleNotifications | quickMemoApp/Services/NotificationManager.swift:177-206 | nothing is scheduled while reminders are off; never more than 64 requests and none in quiet hours |
| PurchaseManager.StateEqualsIsEquality | PurchaseManager.swift:70-90 | the hand-written equality of purchase states holds exactly when the two states are the same, failure messages included |
| PurchaseManager.GrantedIdsMembers | PurchaseManager.swift:376-403 | a product is owned exactly when some verified, unrevoked entitlement names it; an expired subscription still counts, since it is inserted before its expiry is looked at |
| PurchaseManager.ProFromIdsNamed | PurchaseManager.swift:15-18 | owning the monthly subscription or the lifetime licence, and nothing else, makes the user Pro |
| PurchaseManager.PurchaseManager.constructor | PurchaseManager.swift:20-32 | nothing owned, not Pro, no purchase started |
| PurchaseManager.PurchaseManager.UpdatePurchasedProducts | PurchaseManager.swift:369-419 | the owned products become those the entitlement feed grants, Pro exactly when a Pro product is among them; the purchase state is untouched |
| PurchaseManager.PurchaseManager.IsPurchased | PurchaseManager.swift:424-426 | true exactly for an owned product |
| PurchaseManager.PurchaseManager.CanCreateMoreMemos | PurchaseManager.swift:434-439 | unlimited for Pro, otherwise fewer than 100 memos; the same gate as the reward manager's with no reward memos |
| PurchaseManager.PurchaseManager.CanCreateMoreCategories | PurchaseManager.swift:441-446 | unlimited for Pro, otherwise fewer than 5 categories; the same gate as the reward manager's with no reward categories |
| PurchaseManager.PurchaseManager.CanUseUnlimitedTags | PurchaseManager.swift:456-461 | exactly the Pro users |
| PurchaseManager.PurchaseManager.GetMaxTagsPerMemo | PurchaseManager.swift:467-469 | Int.max for Pro, 15 otherwise, so never below the free limit |
| QuickInput.RemoveFirst | quickMemoApp/Utils/QuickInputManager.swift:22-24 | removing the first occurrence takes away exactly one copy of the name when present and leaves the list alone otherwise |
| QuickInput.RemoveFirstMembers | quickMemoApp/Utils/QuickInputManager.swift:22-24 | removal brings in no new name |
| QuickInput.RemoveFirstAt | quickMemoApp/Utils/QuickInputManager.swift:22-24 | removing the first occurrence cuts out just that entry; the entries before and after it keep their order |
| QuickInput.RemoveFirstNoDuplicates | quickMemoApp/Utils/QuickInputManager.swift:22-24 | on a list without repeats the name is gone entirely and the list stays without repeats |
| QuickInput.Promote | quickMemoApp/Utils/QuickInputManager.swift:22-29 | the new recent list is never empty, starts with the used category and holds at most three names |
| QuickInput.PromoteLength | quickMemoApp/Utils/QuickInputManager.swift:22-29 | the list grows by one for a new name and keeps its length for a known one, capped at three |
| QuickInput.PromoteKeepsDistinct | quickMemoApp/Utils/QuickInputManager.swift:22-29 | a recent list without repeats stays without repeats and gains no name but the used one |
| QuickInput.QuickInputManager.constructor | quickMemoApp/Utils/QuickInputManager.swift:42-46 | the stored last category (else 仕事), the stored recent list (else empty) and the stored flag |
| QuickInput.QuickInputManager.RecordCategoryUsage | quickMemoApp/Utils/QuickInputManager.swift:19-32 | the used category becomes the quick category and heads both the recent list and the preloaded list; the enabled flag is untouched |
| QuickInput.QuickInputManager.PreloadCategories | quickMemoApp/Utils/QuickInputManager.swift:38-40 | never empty: the recent list once there is one, the three default names before |
| Rewards.DetermineSlot | quickMemoApp/Services/RewardManager.swift:155-169 | each of the four slot kinds is chosen exactly under its own condition: Pro; free and under the limit; at the limit with earned slots; at the limit without |
| Rewards.CanCreate | quickMemoApp/Services/RewardManager.swift:136-149 | creating is allowed exactly when the slot decision finds some slot, so the two never disagree |
| Rewards.CanCreateMonotone | quickMemoApp/Services/RewardManager.swift:136-149 | earning more slots never takes away the ability to create |
| Rewards.RewardManager.constructor | quickMemoApp/Services/RewardManager.swift:46-54 | both counters are the stored values |
| Rewards.RewardManager.HasRewardMemos | quickMemoApp/Services/RewardManager.swift:59-61 | earned memo slots exist exactly when a free user at the memo limit may still create a memo |
| Rewards.RewardManager.HasRewardCategories | quickMemoApp/Services/RewardManager.swift:64-66 | earned category slots exist exactly when a free user at the category limit may still create a category |
| Rewards.RewardManager.ConsumeRewardMemo | quickMemoApp/Services/RewardManager.swift:75-85 | succeeds exactly when a memo slot was left, and then takes exactly one; the category counter is untouched; counters never go negative |
| Rewards.RewardManager.ConsumeRewardCategory | quickMemoApp/Services/RewardManager.swift:89-99 | succeeds exactly when a category slot was left, and then takes exactly one; the memo counter is untouched; counters never go negative |
| Rewards.RewardManager.GrantMemoReward | quickMemoApp/Services/RewardManager.swift:102-112 | one watched advert adds ten memo slots and nothing else |
| Rewards.RewardManager.GrantCategoryReward | quickMemoApp/Services/RewardManager.swift:115-125 | one watched advert adds one category slot and nothing else |
| Rewards.RewardManager.GrantReward | quickMemoApp/Services/RewardManager.swift:128-130 | the legacy grant is the memo grant |
| Rewards.RewardManager.MemoSlotType | quickMemoApp/Services/RewardManager.swift:155-169 | Pro users get the unlimited slot, free users under 100 memos a free slot, and an earned slot is used only at the limit and only when one is left |
| Rewards.RewardManager.CanCreateMemo | quickMemoApp/Services/RewardManager.swift:136-149 | a memo may be created exactly when the slot decision does not report the limit |
| Rewards.RewardManager.CategorySlotType | quickMemoApp/Services/RewardManager.swift:208-222 | Pro users get the unlimited slot, free users under 5 categories a free slot, and an earned slot is used only at the limit and only when one is left |
| Rewards.RewardManager.CanCreateCategory | quickMemoApp/Services/RewardManager.swift:189-202 | a category may be created exactly when the slot decision does not report the limit |
| Rewards.RewardManager.UseRewardMemoIfNeeded | quickMemoApp/Services/RewardManager.swift:173-181 | an earned memo slot is spent exactly when the slot decision picked one, and then exactly one |
| Rewards.RewardManager.UseRewardCategoryIfNeeded | quickMemoApp/Services/RewardManager.swift:226-234 | an earned category slot is spent exactly when the slot decision picked one, and then exactly one |
| TagManager.DropLeading | quickMemoApp/Utils/TagManager.swift:46 | what is left after dropping leading characters of a class starts with a character outside the class, and is no longer than the word |
| TagManager.DropTrailing | quickMemoApp/Utils/TagManager.swift:46 | what is left after dropping trailing characters of a class is a prefix of the word ending outside the class |
| TagManager.TrimPunctuation | quickMemoApp/Utils/TagManager.swift:46 | a trimmed word starts and ends with a non-punctuation character, or is empty |
| TagManager.TrimEach | quickMemoApp/Utils/TagManager.swift:44-46 | one trimmed word per split word, position by position |
| TagManager.ExtractKeywords | quickMemoApp/Utils/TagManager.swift:41-50 | every word of the text, trimmed of punctuation, of at least two characters and not a stop word, each exactly once, and nothing else |
| TagManager.TopOfSorted | quickMemoApp/Utils/TagManager.swift:119-121 | the first n of a list sorted by key are in key order and none left out has a smaller key than one kept |
| TagManager.TopTags | quickMemoApp/Utils/TagManager.swift:116-122 | the first ten of the distinct tags sorted by use are distinct used tags, most used first, none left out used more than one kept, and all of them when fewer than ten |
| TagManager.GetFrequentTags | quickMemoApp/Utils/TagManager.swift:111-123 | at most ten distinct tags of the last hundred memos, most used first; a tag left out is used no more often than any kept; fewer than ten only when fewer distinct tags were used |
| TagManager.CategoryDefaultTags | quickMemoApp/Utils/TagManager.swift:105-108 | the named category's default tags, none when no category has that name |
| TagManager.AddWords | quickMemoApp/Utils/TagManager.swift:25-29 | the keyword loop keeps what was suggested, adds only new keywords, never one twice, and every keyword of at least two characters ends up suggested |
| TagManager.AddFrequent | quickMemoApp/Utils/TagManager.swift:31-36 | the frequent-tag loop keeps what was suggested, adds only frequent tags not yet suggested, stops at five, and every frequent tag is in when fewer than five result |
| TagManager.ExtendsWeaken | quickMemoApp/Utils/TagManager.swift:16-39 | a list admitted with a smaller pool of candidates is admitted with a larger one |
| TagManager.PoolCovers | quickMemoApp/Utils/TagManager.swift:17-19 | the keywords and frequent tags the loops add all come from the text's keywords and the recent memos' tags |
| TagManager.GenerateTagSuggestions | quickMemoApp/Utils/TagManager.swift:16-39 | at most five suggestions: the category's first two default tags, then only keywords of the text or recent tags, none of them twice; when the text has a keyword, one of its keywords is suggested; with fewer than five suggestions, every recent tag is among them |
| TagManager.TagManager.constructor | quickMemoApp/Utils/TagManager.swift:7-13 | both published lists start empty |
| TagManager.TagManager.RecordTagUsage | quickMemoApp/Utils/TagManager.swift:125-134 | the popular tags become the frequent tags of the memos: at most ten, distinct, most used first, none less used than a recent tag left out, and every recent tag when fewer than ten; the recorded tags themselves play no part; suggestions are untouched |
| TagManager.TagRun | quickMemoApp/Utils/TagManager.swift:57 | the run of tag characters (letters, numbers, underscore) at the start of the text is maximal |
| TagManager.Hashtags | quickMemoApp/Utils/TagManager.swift:57-72 | every match is a non-empty run of tag characters |
| TagManager.ExtractHashtags | quickMemoApp/Utils/TagManager.swift:55-80 | exactly the matched tags of at most twenty characters, each once, each a non-empty run of tag characters |
| TagManager.NoHashtagFixed | quickMemoApp/Utils/TagManager.swift:84-93 | text with no '#' before a tag character has no match, and stripping leaves it unchanged |
| TagManager.StripKeepsFirst | quickMemoApp/Utils/TagManager.swift:84-93 | stripping text that starts with a non-tag character keeps that first character |
| TagManager.StripLeavesNoHashtag | quickMemoApp/Utils/TagManager.swift:84-93 | after the matches are removed no '#' is directly followed by a tag character |
| TagManager.NoHashtagConcat | quickMemoApp/Utils/TagManager.swift:94-98 | two texts without hashtags joined make none, unless the first ends in '#' and the second starts with a tag character |
| TagManager.PiecesNoHashtag | quickMemoApp/Utils/TagManager.swift:96-97 | splitting text without hashtags gives pieces without hashtags |
| TagManager.JoinNoHashtag | quickMemoApp/Utils/TagManager.swift:98 | joining hashtag-free pieces with single spaces makes no hashtag, a space not being a tag character |
| TagManager.RemoveHashtagsLeavesNone | quickMemoApp/Utils/TagManager.swift:83-103 | after removeHashtagsFromText no hashtag is left to extract |
| TagManager.RemoveHashtagsIdempotent | quickMemoApp/Utils/TagManager.swift:83-103 | removing hashtags a second time changes nothing |
| WatchModels.WatchDefaults | quickMemoWatchApp.backup/Models/WatchModels.swift:97-107 | the four watch defaults in order (仕事, プライベート, アイデア, その他) with their icons and colours, each with a fresh identifier |
| WatchModels.WatchDataManager.constructor | quickMemoWatchApp.backup/Models/WatchModels.swift:44-66 | the decoded stored memos (else none); the decoded stored categories, or the four defaults when none were stored |
| WatchModels.WatchDataManager.AddMemo | quickMemoWatchApp.backup/Models/WatchModels.swift:80-83 | exactly one memo more, at the end; categories untouched |
| WatchModels.WatchDataManager.DeleteMemo | quickMemoWatchApp.backup/Models/WatchModels.swift:85-88 | every memo with the identifier is removed, every other kept as often as before and in order; categories untouched |
| WatchModels.WatchDataManager.UpdateFromPhone | quickMemoWatchApp.backup/Models/WatchModels.swift:90-95 | both lists become exactly what the phone sent |
| WatchModels.WatchDataManager.InitializeDefaultCategories | quickMemoWatchApp.backup/Models/WatchModels.swift:97-107 | only an empty category list is filled, with the four defaults; memos untouched |
| WatchModels.WatchDataManager.GetCategory | quickMemoWatchApp.backup/Models/WatchModels.swift:109-111 | the first category with exactly that name; none exactly when no category has it |
| DeepLink.CategoryOf | quickMemoApp/quickMemoAppApp.swift:41-43 | the decoded value of the first "category" query item; nothing when there is no query, no such item, no value, or the value does not decode |
| DeepLink.DeepLinkManager.constructor | quickMemoApp/quickMemoAppApp.swift:26-27 | no pending action |
| DeepLink.DeepLinkManager.HandleUrl | quickMemoApp/quickMemoAppApp.swift:34-49 | only quickmemo links act: "open" asks for the app, "add" with a usable category asks for the editor on that category, anything else leaves the pending action as it was |
| DeepLink.DeepLinkManager.ClearPendingAction | quickMemoApp/quickMemoAppApp.swift:51-53 | no pending action afterwards |
| Widget.Pow16 | quickMemoWidget/quickMemoWidget.swift:66 | powers of sixteen are positive |
| Widget.HexValueBound | quickMemoWidget/quickMemoWidget.swift:66 | n hexadecimal digits denote less than 16 to the n |
| Widget.AllHexAppend | quickMemoWidget/quickMemoWidget.swift:66 | hexadecimal digit strings stay digit strings when put side by side |
| Widget.HexValueAppend | quickMemoWidget/quickMemoWidget.swift:66 | digits written after others shift those up by four bits each |
| Widget.ShiftDigit | quickMemoWidget/quickMemoWidget.swift:66 | one more digit multiplies the value so far by sixteen and adds the digit |
| Widget.HexRun | quickMemoWidget/quickMemoWidget.swift:66 | the leading run of hexadecimal digits is maximal and all digits |
| Widget.ScanHex | quickMemoWidget/quickMemoWidget.swift:65-66 | the scanned value of a string is below 16 to its length, so a 3-, 6- or 8-character colour fits 12, 24 or 32 bits |
| Widget.PowMonotone | quickMemoWidget/quickMemoWidget.swift:66 | longer strings have larger bounds |
| Widget.ChannelsInRange | quickMemoWidget/quickMemoWidget.swift:63-85 | every channel of every colour decoded from any string lies in 0..255, for all three accepted lengths and the fallback |
| Widget.HexChar | quickMemoWidget/quickMemoWidget.swift:62-86 | the digit written for a value below 16 is read back as that value |
| Widget.HexByte | quickMemoWidget/quickMemoWidget.swift:62-86 | the two digits written for a byte are read back as that byte |
| Widget.ColorRoundTrip | quickMemoWidget/quickMemoWidget.swift:63-85 | a colour the app stores as #RRGGBB is decoded as the same opaque colour |
| Widget.HexRunAll | quickMemoWidget/quickMemoWidget.swift:66 | a string of hexadecimal digits is scanned whole |
| Widget.TrimHashDigits | quickMemoWidget/quickMemoWidget.swift:64 | trimming non-alphanumerics removes the leading '#' and keeps the digits |
| Widget.DivideBytes | quickMemoWidget/quickMemoWidget.swift:72 | shifting and masking a packed 24-bit colour gives back its three bytes |
| Widget.WidgetLanguage | quickMemoWidget/quickMemoWidget.swift:11-17 | the app's saved language unless it is the device setting or missing, then the locale's language, then Japanese |
| Widget.BundlePath | quickMemoWidget/quickMemoWidget.swift:19-28 | English and Chinese (zh or zh-Hans) have their own bundles and every other language falls back to Japanese |
| Widget.PickByName | quickMemoWidget/quickMemoWidget.swift:121-123 | for each name in order the first category of that name, names without one dropped; never more categories than names and only existing ones |
| Widget.PickByNameAllFound | quickMemoWidget/quickMemoWidget.swift:121-123 | when every name has a category, the shown names are exactly the chosen names in the chosen order |
| Widget.SampleCategories | quickMemoWidget/quickMemoWidget.swift:139-146 | four categories named work, personal, idea, other in the current language, ordered 0 to 3, without default tags |
| Widget.LoadCategories | quickMemoWidget/quickMemoWidget.swift:105-137 | a Pro user with a selection sees the selected names that exist, in the selected order; others see their categories bearing the four default names, at most four; every category shown is a stored one; with nothing stored, the samples |
| Widget.FreePrefixNoOp | quickMemoWidget/quickMemoWidget.swift:131-133 | on the free path the cut to four never drops a category, there being only four default names |
| WidgetSettings.WidgetSelection | quickMemoApp/Views/WidgetCategorySettingsView.swift:123-126 | the saved list names exactly the selected names that are existing categories, taken from the categories sorted by their order |
| WidgetSettings.WidgetCategorySettings.constructor | quickMemoApp/Views/WidgetCategorySettingsView.swift:13-17 | the selection starts as the set of the stored widget categories, with no alert and no confirmation showing |
| WidgetSettings.WidgetCategorySettings.CanSelectCategory | quickMemoApp/Views/WidgetCategorySettingsView.swift:88-94 | Pro users may select anything; free users only what is already selected |
| WidgetSettings.WidgetCategorySettings.ToggleCategory | quickMemoApp/Views/WidgetCategorySettingsView.swift:96-111 | a free user adding a new name gets the purchase alert and no change; otherwise selecting adds the name while fewer than eight are selected and deselecting removes it; a free user's selection never grows; the limit of eight is kept |
| WidgetSettings.WidgetCategorySettings.HasChanges | quickMemoApp/Views/WidgetCategorySettingsView.swift:113-116 | there are changes exactly when some name is in one of the selection and the stored list but not the other |
| WidgetSettings.WidgetCategorySettings.SaveSettings | quickMemoApp/Views/WidgetCategorySettingsView.swift:118-132 | the selection is saved in category order, unchanged itself, and the confirmation shows |
| WidgetSettings.SavedSelectionHasNoChanges | quickMemoApp/Views/WidgetCategorySettingsView.swift:113-132 | after saving a selection of existing names, reading it back gives the same set, so the screen shows no changes |
| WidgetSettings.WatchIsProAsWritten | quickMemoApp/Views/WatchSettingsView.swift:13-20 | as written: the screen's Pro check can never pass for a user whose purchases are among the app's own two products |
| WidgetSettings.WatchIsPro | quickMemoApp/Views/WatchSettingsView.swift:13-20 | corrected: Pro on the watch screen exactly when the monthly subscription or the lifetime licence is owned, as everywhere else in the app |
| WidgetSettings.WatchPro | quickMemoApp/Views/WatchSettingsView.swift:13-20 | the screen's guard in both readings: as written it is ownership of `pro.quickmemo.monthly` and fails for every buyer of the app's products; corrected it is the app-wide monthly-or-lifetime check |
| WidgetSettings.WatchProCheckMissesBuyers | quickMemoApp/Views/WatchSettingsView.swift:19 | a lifetime buyer, and a monthly subscriber, is Pro by the app's rule but not by the product identifier the screen checks |
| WidgetSettings.DefaultFreeCategories | quickMemoApp/Views/WatchSettingsView.swift:193-195 | the localized work, personal and other, in that order |
| WidgetSettings.WatchSettings.constructor | quickMemoApp/Views/WatchSettingsView.swift:9 | nothing selected |
| WidgetSettings.WatchSettings.LoadSelectedCategories | quickMemoApp/Views/WatchSettingsView.swift:197-207 | as written (the screen's own check) nothing changes for any buyer of the app's products; under either guard a user who passes it gets the saved list, else the names of the first four categories (so at most four), and a user who fails it keeps the selection |
| WidgetSettings.WatchSettings.ToggleCategory | quickMemoApp/Views/WatchSettingsView.swift:209-217 | a selected name is removed; a new one is added only while fewer than four are selected; the limit of four is kept |
| WidgetSettings.WatchSettings.SaveAndSync | quickMemoApp/Views/WatchSettingsView.swift:219-237 | as written (the screen's own check) nothing is written for any buyer of the app's products; under either guard a user who passes it, with the app group present, has the selection written as a list of the same names, each once; otherwise, or without the app group, nothing is written |
| PyValue.Iterate | scripts/extract_backup_data.py:339-341 | what list.extend iterates over: a list's own items; dictionaries, strings and bytes are iterated too; anything else raises; an iterable yields nothing exactly when it is falsy |
| PyValue.Lookup | scripts/extract_backup_data.py:166-168 | a key is found exactly when the dictionary has it, and then with its stored value |
| PyValue.Get | scripts/extract_backup_data.py:70-75 | a missing key gives the default; a present key gives the value stored under it |
| SqlLike.Fold | scripts/extract_backup_data.py:102 | SQLite's LIKE folds ASCII letters case-insensitively, character by character |
| SqlLike.LikePrefix | scripts/extract_backup_data.py:102 | a pattern of literal text then '%' matches exactly the values that start with that text, ignoring ASCII case |
| SqlLike.LikeAnything | scripts/extract_backup_data.py:102 | '%' alone matches every value |
| SqlLike.LikeAnySuffix | scripts/extract_backup_data.py:102 | a leading '%' lets the rest of the pattern match at any later position |
| SqlLike.LikeSomeSuffix | scripts/extract_backup_data.py:102 | a leading '%' matches only when the rest matches at some later position |
| SqlLike.LikeContains | scripts/extract_backup_data.py:101-103 | the search pattern '%term%' matches exactly the values that contain the term, ignoring ASCII case |
| StringOrder.LessIrreflexive | quickMemoApp/Services/DataManager.swift:134 | no string sorts before itself |
| StringOrder.LessTransitive | quickMemoApp/Services/DataManager.swift:134 | the string order is transitive |
| StringOrder.LessTotal | quickMemoApp/Services/DataManager.swift:134 | any two different strings are ordered one way or the other |
| StringOrder.LessAsymmetric | quickMemoApp/Services/DataManager.swift:134 | two strings are never each before the other |
| StringOrder.StrictlySortedDistinct | quickMemoApp/Services/DataManager.swift:134 | a strictly ascending list holds no string twice |
| StringOrder.InsertUnique | quickMemoApp/Services/DataManager.swift:134 | inserting keeps the list strictly ascending and adds exactly the one string |
| StringOrder.SortedUnique | quickMemoApp/Services/DataManager.swift:134 | the distinct strings of a list, strictly ascending, and no others |
| StringOrder.StrictlySortedUnique | quickMemoApp/Services/DataManager.swift:134 | two strictly ascending lists of the same strings are the same list, so the sorted distinct tags are fully determined |
| Sorting.Insert | quickMemoApp/Views/WidgetCategorySettingsView.swift:125 | inserting into a sorted list keeps it sorted and adds exactly the one element |
| Sorting.SortBy | quickMemoApp/Views/WidgetCategorySettingsView.swift:125 | sorting by a key gives an ascending permutation of the input |
| Sorting.SameMembers | quickMemoApp/Views/WidgetCategorySettingsView.swift:125 | a permutation holds the same elements |
| Text.LeadingCountSpec | quickMemoApp/Services/ExportManager.swift:640 | exactly the counted leading characters are in the trimmed set, and the next one is not |
| Text.TrailingCountSpec | quickMemoApp/Services/ExportManager.swift:640 | exactly the counted trailing characters are in the trimmed set, and the one before is not |
| Text.TrimBySpec | quickMemoApp/Services/ExportManager.swift:640 | trimmed text neither starts nor ends with a trimmed character, and is empty exactly when every character was in the set |
| Text.TrimByKeeps | quickMemoApp/Services/ExportManager.swift:640 | text that starts and ends outside the set is not changed by trimming |
| Text.TrimIdempotent | quickMemoApp/Services/ExportManager.swift:640 | trimming twice is trimming once |
| Text.IndexOf | quickMemoApp/Services/ExportManager.swift:619 | the first position where the separator occurs, or none when it occurs nowhere |
| Text.SplitWhere | quickMemoApp/Services/ExportManager.swift:666 | splitting gives at least one piece and no piece holds a separator |
| Text.SplitOn | quickMemoApp/Services/ExportManager.swift:666 | splitting on a character gives at least one piece and no piece holds that character |
| Text.JoinSplitWhere | quickMemoApp/Services/ExportManager.swift:666 | splitting and joining with the same separator gives the text back |
| Text.JoinSplitOn | quickMemoApp/Services/ExportManager.swift:666 | splitting on a character and joining with it gives the text back |
| Text.SplitWhereJoin | quickMemoApp/Services/ExportManager.swift:692 | joining separator-free pieces and splitting again gives the pieces back |
| Text.SplitJoin | quickMemoApp/Services/ExportManager.swift:692 | joining pieces free of a character with it and splitting again gives the pieces back |
| Text.SplitOnString | quickMemoApp/Services/ExportManager.swift:619 | splitting on a separator string gives at least one piece |
| Text.JoinSplitOnString | quickMemoApp/Services/ExportManager.swift:619 | splitting on a separator string and joining with it gives the text back |
| Text.LowerAscii | quickMemoApp/Services/ExportManager.swift:540 | lowercasing changes only the ASCII capitals, each to its small letter |
| Text.DigitChar | quickMemoApp/Services/ExportManager.swift:184 | the digit written for a value below ten reads back as that value |
| Text.NatToDecimal | quickMemoApp/Services/ExportManager.swift:184 | a non-negative number is written as a non-empty string of digits denoting it |
| Text.IntToDecimal | quickMemoApp/Services/ExportManager.swift:184 | an integer is written with an optional minus sign and digits |
| Text.ParseInt | quickMemoApp/Services/ExportManager.swift:792 | a parsed integer lies in the 64-bit range and came from an optional sign followed by digits |
| Text.ParseIntToDecimal | quickMemoApp/Services/ExportManager.swift:184 | an integer in the 64-bit range written out is parsed back as itself |

## Left out

- Console output, argument parsing, default-path discovery and the JSON file written by `save_extracted_data` in the backup script are not modelled. The script's results are returned as values.
- SHA-1 hashing, SQLite access, plist decoding and JSON decoding are parameters of the members that need them. Their results are taken as given.
- Persistence through `UserDefaults`, the App Group container, Core Data saves, JSON encoding and keychain storage is not modelled. Stored values are passed in, and values to store are returned or kept as fields.
- StoreKit purchase, restore and transaction listening are not modelled. Only the entitlement and reward logic built on their outcomes is.
- Advert loading and presentation are not modelled. Only the reward bookkeeping after an advert is watched is.
- CloudKit, WatchConnectivity sending, `NotificationCenter` posting and `UNUserNotificationCenter` delivery are not modelled. The model returns what would be sent or scheduled.
- SwiftUI view layout, animation and alert presentation are reduced to the state fields that the views' actions change.
- Floating-point values are left out, because Dafny has no IEEE doubles here. Costs and colour channels are integers. The calendar log's success rate is an exact real, and its rounding to one decimal place is not modelled.
- Swift's fixed-width `Int` overflow is not modelled: integers are unbounded. Two ranges are stated where they matter. The Core Data attributes are 32-bit: storing a duration or order outside that range would trap, so their `Update` members require values within it. The CSV import reads a duration with `Int(String)`, which accepts only 64-bit values.
- Dates are integer seconds. Hour and minute come from a `clock` parameter. Adding minutes is plain addition, which never fails, and daylight-saving shifts are not modelled.
- Swift's `String <` is modelled by `StringOrder.Less`, a lexicographic order on characters. Unicode canonical ordering and collation are not modelled.
- Case folding covers ASCII letters only, in lower-casing and in SQLite `LIKE` matching.
- Grapheme clusters are not modelled: `count` counts characters.
- The `\p{L}\p{N}` regular-expression classes and the punctuation character set are predicate parameters.
- URL percent-decoding in deep links is a `decode` parameter.
- The order of `Set` and `Dictionary` iteration is unspecified in Swift. The model picks one order, and the contracts say nothing about order there.
- TagManager.GetFrequentTags: tags with equal counts come in an unspecified order, as in Swift.
- TagManager.TagManager.RecordTagUsage: the asynchronous `Task` in `updatePopularTags` is modelled as running immediately.
- Several `DataManager` methods are parameters or returned values where they are used: category add, update and reorder, the delete and rename permission checks, tag add, and the widget category load and save. `DataManager.swift` beyond the members listed above is not part of this model.
- `FastInputView.saveMemo` can create a calendar event through EventKit. That step is not modelled; the memo keeps the event id it was given.
- Sending a memo to an AI provider is not modelled: no network request, response parsing or token counting. Only the choice of instruction and the request bookkeeping are.
- The `#if DEBUG` Pro override and the debug reward helpers are not modelled. They do not exist in release builds.
- `LocalizationManager`'s bundle swizzling and refresh notifications are not modelled. A `localized` lookup function stands in for them.
- `DataModels.swift` declares `QuickMemo` without `title` and `durationMinutes`, but the code that uses memos reads and writes both. The model follows the code and includes them.
- The full `QuickMemo` and `Category` initialisers are the datatype constructors themselves.
- `Color(hex:)` trims non-alphanumeric characters only at the two ends of the string, not throughout. The model follows the code.
- Text.IsAlphanumeric covers the ASCII letters and digits only, while `Color(hex:)` trims with the Unicode `CharacterSet.alphanumerics`. A string such as `#FF0000é` keeps its last letter in Swift and falls to the default colour, but the model trims it and reads red.
- WidgetSettings.WatchSettings.LoadSelectedCategories and WidgetSettings.WatchSettings.SaveAndSync take the screen's guard as a parameter: `corrected` false is the code as written, which loads and writes nothing for any buyer of the app's products; `corrected` true is the app-wide Pro check.
- ExportManager.ParseMarkdownSection models the corrected Markdown section parser. When a category or tag line's prefix ends in the full-width colon `：`, that colon is read as an ASCII `:`; every other line is read exactly as written. The parser as written, `ExportManager.ParseSectionAsWritten`, differs only on such lines: `ExportManager.AsWrittenAgreesWithoutWidePrefix` proves the two agree on every section without one.
- ExportManager.ImportMarkdownText runs the corrected section parser, so it differs from the code as written only on sections with a category or tag line whose prefix ends in `：`.
- ExportManager.ImportMarkdownData runs the corrected section parser, with the same difference.
- ExportManager.ParseSections runs the corrected section parser, with the same difference.
- ExportManager.ImportMemos runs the corrected section parser in its Markdown branch, with the same difference.
- ExportManager.CsvFileRoundTrip is stated for the fully escaped text `CsvText`. `ExportManager.CsvAsWrittenRoundTrip` carries it over to the text the code writes when no identifier, joined tags, date, event identifier or duration needs quoting. Both hold only for memos none of whose row values holds a line break. A title, content or category with a line feed is written as a quoted field across several lines. The importer splits the file into lines before it reads any field, so such a memo comes back as broken rows.
- ExportManager.CreateCsvText models the text of `createCSVData` before it is encoded. The leading UTF-8 byte order mark and the encoding are left to the decoding step, `ExportManager.DecodeText`.
- NotificationManager.ScheduleInBackground states that requests are limited, numbered, outside quiet hours and increasing. It does not state that exactly the first 64 non-quiet dates are scheduled, nor that nothing is scheduled after 1000 loop steps. `NotificationManager.NextNotificationDates` states the dates themselves.
- MemoArrange.ArrangeMemoNeverStuck follows directly from the corrected `MemoArrange.ArrangeMemo` and has an empty proof.
- Localization.AllLocalizedVariants returns a set. The order of the Swift array it stands for is not modelled.
- TagManager.ExtractKeywords states which words are kept, not the order in which duplicates are dropped.

## Findings

| source | as written | input that shows it | evidently intended | confidence | as-written member | corrected member |
|---|---|---|---|---|---|---|
| quickMemoApp/Services/ExportManager.swift:181-187 | the CSV row writes the tags joined by `;` and the calendar event id without quoting | a memo whose only tag is `a,b` is written as ten fields, and the import reads `a` as its tags | every cell goes through the same escaping as the title and the content | high (not executed) | ExportManager.RowAsWrittenSplitsTags | ExportManager.RowRoundTrip |
| quickMemoApp/Services/ExportManager.swift:683-693 | the Markdown section parser accepts category and tag lines whose prefix ends in either colon, but reads the value only after an ASCII `:` | the line `- **カテゴリー**：仕事` leaves the memo in その他; likewise `- **タグ**：x` leaves the tags empty | the full-width colon that ends the prefix separates the value as well | high (not executed) | ExportManager.WideCategoryIgnored | ExportManager.CategoryEitherColon |
| quickMemoApp/Views/MemoArrangeView.swift:398-411 | `isProcessing` is set before the instruction is looked up and is not reset when none resolves | a selection with no preset, the custom prompt id 7 (which no longer exists) and empty custom text | the flag is raised only when a request is actually sent | medium (not executed) | MemoArrange.DeletedPromptLeavesSpinner | MemoArrange.ArrangeMemo |
| quickMemoApp/Views/WatchSettingsView.swift:13-20 | the watch treats the user as Pro only when `pro.quickmemo.monthly` is among the purchased products, and neither of the app's product ids is that string | a user who bought the lifetime product, or one who holds the monthly subscription, is shown as free on the watch | the monthly subscription or the lifetime product makes the user Pro, as in the purchase manager | medium (not executed) | WidgetSettings.WatchProCheckMissesBuyers | WidgetSettings.WatchIsPro |
