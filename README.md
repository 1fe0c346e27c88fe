# Guild database manager, modelled in Dafny

This project models `utils/db_manager.py`: a document store that a Discord
bot keeps over a remote key-value service (the Replit database). The service
holds text under string keys. The manager reads through an in-process cache
and writes through to the service. It keeps one JSON document per guild
under `guild:{id}`, a list of known guild ids under `guilds`, and counters
under `bot_stats:{id}`. Above that sit four maintenance passes (cleanup,
optimize, statistics and sync) and a transaction object that buffers
writes.

The model has these modules:

- `Wrappers` and `PyJson` (json.dfy): JSON values as Python sees them. They
  model truthiness, `x or d`, dicts as insertion-ordered association lists
  (`d.get`, `d[k] = v`), iteration, the `in` operator and `str()`.
- `Store` (store.dfy): the cache and the service as a value
  `Db(cache, store)`. It defines `_read_data`, `_write_data` and
  `_delete_data` as functions. Each transport call takes its outcome,
  `Up` or `Down`, as a parameter. `json.dumps` and `json.loads` are a
  `Codec` parameter.
- `KeyList` (keylist.dfy): `_list_keys`, which splits the service's answer
  on newlines.
- `Lifecycle` (lifecycle.dfy): `initialize` and `check_connection`.
- `Documents` (documents.dfy): the guild document operations, from
  `get_guild_data` to `ensure_guild_exists`.
- `Maintenance` (maintenance.dfy): the four passes over the guild list.
  Each loop is a recursive function over the guild positions.
- `Commit` (commit.dfy): what a transaction's clean exit does to the
  store.
- `Manager` (manager.dfy): the two classes.
  - `DatabaseManager` has the fields `cache`, `store`, `initialized` and
    `operations`. Every method is proved to leave `State()` and answer
    exactly what the matching function above states.
  - The loops are `while` loops whose invariants tie the state to those
    functions.
  - `DatabaseTransaction` has a phase and a buffer of changes.

Three facts about the code as written run through the model:

- **A successful write caches the posted text, not the value.** After
  `_write_data('k', {...})`, a read of `k` in the same process answers a
  string. A second `update_section` of that guild then raises TypeError.
  A second `increment_stat` of that bot fails. The statistics pass fails
  on that guild.
- **Edits reach the cache without a write.** `get_guild_data` hands out
  the cached dict itself. In-place edits (`update_section`, `add_log`,
  `update_user_xp`, `increment_stat`, the cleanup filters, the index
  append in `ensure_guild_exists`) therefore change the cache entry even
  when the write that follows fails.
- **New documents break `add_log` and the cleanup.** A new guild document
  has `logs` set to the dict `{'enabled': False}`. `add_log` on it raises
  AttributeError, and the cleanup of it raises TypeError.

Behaviours a caller might not expect:

- **Write then read.** A read after a successful write answers the JSON
  text that was posted, not the value, for any value that is not a string
  (`Store.ReadAfterWrite`, `Store.WriteBreaksCoherence`).
- **Transaction locks.** Every transaction object creates its own lock,
  so two transactions on the same guild and namespace never exclude each
  other.
- **Sync failures.** Nothing inside the loop's `try` in `sync_guilds` can
  raise, so the `failed` count is always 0 (`Maintenance.SyncGuilds`).
- **Sync replaces documents.** When the read of a guild's document fails,
  `sync_guilds` and `ensure_guild_exists` write a new document over
  whatever the service holds (`Maintenance.SyncCreatesDocument`,
  `Documents.EnsureDocument`).
- **Initialization.** Only `check_connection` looks at the initialized
  flag. `initialize` on a fresh service caches the text `"[]"` as the
  guild list. The next `ensure_guild_exists` then fails, because a string
  has no `append` (`Lifecycle.InitializeThenEnsureFails`).
- **Values written.** `_write_data` posts strings as they are and
  `json.dumps` everything else.

## Model

| member | source | states |
|---|---|---|
| Store.Read | utils/db_manager.py:52-78 | A cached key answers its cached value and changes nothing. On a miss, a value comes back only when the service is up and holds the key. The value is the decoded text, or the raw text when it does not decode, and it is then cached. None leaves the cache unchanged. The store never changes. |
| Store.Write | utils/db_manager.py:80-101 | Succeeds exactly when the transport is up. On success the key is stored and cached as the posted text: strings as they are, anything else `json.dumps`ed. A failed write changes nothing. |
| Store.Delete | utils/db_manager.py:103-117 | Succeeds exactly when the transport is up. On success it removes exactly that key from the store and the cache. A failed delete changes nothing. |
| Store.ReadKeepsCoherent | utils/db_manager.py:52-78 | A read keeps every cached value equal to what a fresh read of the stored text would give. |
| Store.DeleteKeepsCoherent | utils/db_manager.py:103-117 | A delete keeps the cache coherent with the service in the same sense. |
| Store.WriteBreaksCoherence | utils/db_manager.py:80-101 | If `loads` inverts `dumps`, a successful write of a non-string leaves the cache disagreeing with what a fresh read would give. |
| Store.ReadAfterWrite | utils/db_manager.py:52-101 | After a successful write, a read of the key answers from the cache whatever the transport does. It answers the posted text, which for a non-string is not the value written. |
| Store.ReadAfterDelete | utils/db_manager.py:103-117 | After a successful delete, the next read of the key misses the cache and answers None. |
| KeyList.Split | utils/db_manager.py:127 | `text.split('\n')` yields at least one piece, and no piece contains the separator. |
| KeyList.JoinSplit | utils/db_manager.py:127 | Joining the pieces of a split gives back the text. |
| KeyList.SplitJoin | utils/db_manager.py:127 | Splitting the join of separator-free pieces gives back the pieces. |
| KeyList.SplitCount | utils/db_manager.py:127 | A split yields one more piece than there are separators. |
| KeyList.ListKeys | utils/db_manager.py:119-133 | A failed call or an empty body gives []. No key contains a newline. A non-empty body gives one more key than it has newlines. |
| KeyList.ListKeysRoundTrip | utils/db_manager.py:119-133 | A non-empty list of newline-free keys, other than [""], sent one per line, is read back exactly, in order. |
| Lifecycle.Initialize | utils/db_manager.py:135-164 | If already initialized, answers True and changes nothing. Otherwise it answers True exactly when the guild list reads as something or its creation as `[]` succeeds. Only the guild list key can change. It is created only when the read gave None, and after a True answer it is cached as a non-null value. |
| Lifecycle.InitializeRereadsFromCache | utils/db_manager.py:153-157 | The verifying read always hits the cache, so its transport outcome never matters. |
| Lifecycle.CheckConnection | utils/db_manager.py:176-188 | Answers False and touches nothing before initialization. After it, answers whether the guild list reads as something other than None; a cached list answers without the service. |
| Lifecycle.InitializeThenConnected | utils/db_manager.py:135-188 | After a successful `initialize`, `check_connection` answers True whatever the transport does, and changes nothing. |
| Lifecycle.InitializeThenEnsureFails | utils/db_manager.py:146-158 | On a fresh service `initialize` succeeds. The guild list is then cached as the text `"[]"`, and every following `ensure_guild_exists` answers False. |
| Documents.GuildKeys | utils/db_manager.py:209 | No guild document key is the guild list's key. An int id and its `str()` name the same document. |
| Documents.GuildDocument | utils/db_manager.py:207-210 | `get_guild_data` answers a truthy value or `{}`, never None. A truthy answer is the cached object. The store is unchanged, and only that key's cache entry can change. |
| Documents.PatchCached | utils/db_manager.py:221 | An in-place section assignment on the cached document changes only that key's cache entry and never the store. |
| Documents.Section | utils/db_manager.py:212-215 | `get_section` answers `{}` for a missing section and the stored value for a present one. It raises AttributeError exactly when the document is not a dict. |
| Documents.UpdateSection | utils/db_manager.py:217-222 | Raises TypeError, without writing, exactly when the document is not a dict. Otherwise answers whether the write succeeded. No other key of the store or cache changes. |
| Documents.UpdateSectionChangesOnlyThatSection | utils/db_manager.py:217-222 | A successful update stores the whole document: the named section holds the new value, every other section is as read, and the key order is kept (a new section goes last). |
| Documents.UpdateSectionAfterFailedRead | utils/db_manager.py:217-222 | When the read fails on a cache miss, the stored document is replaced by one holding only the named section. |
| Documents.UpdateSectionFailedWriteEditsCache | utils/db_manager.py:217-222 | A failed write leaves the store as it was, but the cached document already holds the new section. |
| Documents.UpdateSectionOnCachedDocument | utils/db_manager.py:217-222 | With a cached non-empty dict, a successful update stores that dict with the one section set. |
| Documents.UpdateSectionTwiceRaises | utils/db_manager.py:217-222 | After one successful update, a second update of the same guild finds the cached text and raises TypeError without writing. |
| Documents.UserXp | utils/db_manager.py:224-227 | Answers the user's record from `xp_users` (None if absent). It raises AttributeError when the section is not a dict, and passes on the error of `get_section`. |
| Documents.UpdateUserXp | utils/db_manager.py:229-233 | Only the guild's key can change. The error of `get_section` is passed on. A truthy `xp_users` that is not a dict raises TypeError. |
| Documents.UpdateUserXpSetsOneUser | utils/db_manager.py:229-233 | With a cached dict document, a successful call stores it with `xp_users[user]` set. Every other user and every other section is unchanged. |
| Documents.AllXp | utils/db_manager.py:235-237 | Answers the `xp_users` section when truthy, `{}` otherwise, and raises exactly when `get_section` does. |
| Documents.Window | utils/db_manager.py:250-251 | The slice `data[-1000:]` has length min(len, 1000). |
| Documents.Recent | utils/db_manager.py:244-251 | The new log list has between 1 and 1000 entries and ends with the new entry. The entries before it are the newest old ones, in order. |
| Documents.WindowConcat | utils/db_manager.py:250-251 | Cutting to the newest 1000 before appending more loses nothing that the final cut keeps. |
| Documents.AppendAllKeepsNewest | utils/db_manager.py:239-253 | Sequential appends keep exactly the newest 1000 entries, in append order. Starting from an empty list, 1005 appends drop the first 5. |
| Documents.LogEntry | utils/db_manager.py:244-247 | The appended entry is a dict whose `timestamp` is now and whose every other key reads as in `log_data`. Distinct keys stay distinct. |
| Documents.AddLog | utils/db_manager.py:239-253 | Only the guild's key can change. The error of `get_section` is passed on. A truthy `logs` that is not a list raises AttributeError and writes nothing. |
| Documents.AppendLog | utils/db_manager.py:241-253 | After the read, only the guild's key can change. A truthy non-list section raises AttributeError and changes nothing. |
| Documents.AppendLogOnDocument | utils/db_manager.py:241-253 | With a cached dict whose `logs` is a list or falsy, the document is stored with `logs` replaced by the recent window ending in the new entry. |
| Documents.AddLogStoresRecentLogs | utils/db_manager.py:239-253 | When the read finds such a document, `add_log` answers True and stores it with `logs` replaced by the recent window. Every other section is unchanged. |
| Documents.Defaults | utils/db_manager.py:398-429 | `get_defaults` answers a configuration exactly for `whisper_config`, `logs`, `xp_settings` and `roles`. Each is a non-empty dict with distinct keys. |
| Documents.NewGuildDocument | utils/db_manager.py:439-447 | A new guild document is a non-empty dict whose `id` is `str(id)`, whose `name` is the name and whose `joined_at` is now. |
| Documents.InitialSectionsAgreeWithDefaults | utils/db_manager.py:439-447 | Each starting section of a new document agrees with that section's defaults on every setting it has. |
| Documents.Bump | utils/db_manager.py:464 | `stats.get(name, 0) + 1` adds one to an int. It is defined exactly for ints and bools; anything else raises. |
| Documents.IncrementStat | utils/db_manager.py:460-468 | Only the bot's counter key can change. It answers True exactly when the counters read as a dict, the named counter can be bumped and the write goes through; the counters are then stored with the named one bumped. False leaves the store unchanged. |
| Documents.IncrementStatStores | utils/db_manager.py:460-468 | Counters read from the service are written back with the named counter at n + 1. |
| Documents.IncrementStatAddsOne | utils/db_manager.py:460-468 | The named counter goes up by exactly one and every other counter is kept. |
| Documents.IncrementStatTwiceFails | utils/db_manager.py:460-468 | After one success, the next call for the same bot finds the cached text and answers False without writing. |
| Documents.EnsureGuildExists | utils/db_manager.py:431-458 | Only the guild's document and the guild list can change. |
| Documents.EnsureDocument | utils/db_manager.py:435-448 | Only the guild's key changes. A document that reads as truthy is never rewritten. One that reads as falsy is replaced by the new-guild document when the service is up, and the store is unchanged otherwise. With the service up, a truthy document is cached afterwards. |
| Documents.CreateDocument | utils/db_manager.py:438-448 | Writing the new-guild document changes only the guild's key. With the service up, the store and the cache then hold the encoded new-guild document. With the service down, nothing changes. |
| Documents.EnsureListed | utils/db_manager.py:450-454 | Answers True exactly when `in` finds the id or the list lacks it (and it is appended). Only the guild list key changes; nothing changes when the id is found or an exception is raised. |
| Documents.EnsureKeepsExistingDocument | utils/db_manager.py:435-448 | A guild whose document reads as truthy keeps it: only the guild list can change in the store. |
| Documents.EnsureAppendsIdOnce | utils/db_manager.py:450-452 | If the stored list lacks the id and the service is up, it is stored again with the id appended, so it holds the id exactly once. |
| Documents.EnsureSettles | utils/db_manager.py:431-458 | A successful call with the service up leaves the guild's document truthy in the cache. It also leaves a truthy guild list that holds the id when it is a list. |
| Documents.ListedSettles | utils/db_manager.py:450-454 | A successful second half leaves a truthy guild list cached, holding the id when it is a list. |
| Documents.SettledEnsureWritesNothing | utils/db_manager.py:431-458 | Once settled, a further call changes nothing, whatever its transport outcomes. |
| Documents.EnsureTwiceWritesNothing | utils/db_manager.py:431-458 | A second call for the same guild after a successful one writes nothing. |
| Maintenance.Stamp | utils/db_manager.py:268 | `fromisoformat` succeeds exactly on a timestamp. Text raises ValueError and anything else TypeError. |
| Maintenance.Verdict | utils/db_manager.py:266-285 | An entry passes exactly when it is a dict with the field set to a timestamp strictly after the bound, or, for an optional field, the field is missing or falsy. A non-dict raises. A missing required field raises KeyError. |
| Maintenance.Keep | utils/db_manager.py:266-285 | Succeeds exactly when every entry can be judged. It keeps exactly the passing entries, no more than there were; otherwise it raises an exception that some entry raised. |
| Maintenance.KeepOne | utils/db_manager.py:266-285 | A one-entry list keeps its entry exactly when it passes, and raises what judging it raises. |
| Maintenance.KeepConcat | utils/db_manager.py:266-285 | Filtering a concatenation is filtering each part and concatenating the results, in order; the first part's exception wins, then the second's. With `KeepOne` this fixes the result entry by entry. |
| Maintenance.KeepCounts | utils/db_manager.py:266-285 | On success each passing entry occurs as often as in the input, and each failing entry not at all. |
| Maintenance.KeepAllPassing | utils/db_manager.py:266-285 | A list whose entries all pass is kept whole, in order. |
| Maintenance.KeepIdempotent | utils/db_manager.py:266-285 | Filtering twice with the same bound equals filtering once. |
| Maintenance.Prune | utils/db_manager.py:265-285 | A missing section leaves the document alone. On success only the named section changes, with the same key order, and it holds the filtered list. The store never changes. The cache changes only for a shared document and not at all when an exception is raised. |
| Maintenance.PruneAll | utils/db_manager.py:264-285 | The three filters keep the key order and every section other than `logs`, `mod_actions` and `whispers`. |
| Maintenance.PruneJudgeable | utils/db_manager.py:265-285 | A section that is absent or whose entries can all be judged is filtered without an exception. |
| Maintenance.PruneAllFilters | utils/db_manager.py:264-285 | When all three sections can be judged, each holds exactly its passing entries in order. Every other section is unchanged. |
| Maintenance.CleanupGuild | utils/db_manager.py:261-287 | Only the guild's key can change in the store, and the store is unchanged when an exception is raised. It raises exactly when one of the three filters does; otherwise the pass goes on with True. With the service up, the cleaned document is stored. |
| Maintenance.CleanupGuildFilters | utils/db_manager.py:261-287 | A guild whose three lists can be judged is written back with each list holding exactly its passing entries. Every other section is unchanged. |
| Maintenance.CleanupFrom | utils/db_manager.py:261-289 | The loop from position i answers True when no guild is left, and leaves the stored text of every key that no guild still to visit names. |
| Maintenance.Cleanup | utils/db_manager.py:255-292 | A guild list that cannot be iterated answers False with the store unchanged. Otherwise the stored text changes only under keys of listed guilds. |
| Maintenance.CleanupKeepsGuildList | utils/db_manager.py:255-292 | `cleanup_old_data` never rewrites the guild list. |
| Maintenance.CleanupFromSplit | utils/db_manager.py:261-292 | The pass over the list is the pass over a prefix, then, if that succeeded, the pass over the rest. |
| Maintenance.CleanupKeepsEarlierWrites | utils/db_manager.py:255-292 | No rollback: when the guild at position k raises, the pass answers False, and every write made for the guilds before k stays in the store. |
| Maintenance.DictLogsBreakCleanup | utils/db_manager.py:265-269 | A `logs` section that is the dict `{'enabled': False}` makes the guild's cleanup raise TypeError. |
| Maintenance.NewGuildBreaksCleanup | utils/db_manager.py:264-269 | A guild whose stored document is the one a new guild gets cannot be cleaned (TypeError). |
| Maintenance.Optimize | utils/db_manager.py:294-310 | Answers True exactly when the guild list, read with an empty cache, can be iterated. On False the store is unchanged, and the cache holds at most the guild list. |
| Maintenance.OptimizeStep | utils/db_manager.py:302-305 | Rewriting one document keeps the state faithful: the same keys are stored, each decodes as the original did, and there are no string literals. |
| Maintenance.OptimizeFrom | utils/db_manager.py:302-305 | The rewrite loop from position i changes nothing when no guild is left, and leaves the stored text of every key that no guild still to visit names. |
| Maintenance.OptimizeFromFaithful | utils/db_manager.py:302-305 | The rewrite loop keeps the state faithful. |
| Maintenance.OptimizeKeepsDocuments | utils/db_manager.py:294-310 | If `loads` inverts `dumps` and no stored value is a JSON string literal, the same keys are stored afterwards and every text decodes as before. |
| Maintenance.OptimizeUnquotesStrings | utils/db_manager.py:302-305 | A stored JSON string literal such as `"123"` is posted back bare, so it then decodes as the number 123. |
| Maintenance.EntryCount | utils/db_manager.py:334-336 | `len(v)` for a dict or list, 1 for anything else. |
| Maintenance.AddSection | utils/db_manager.py:330-336 | The section's collection, created at zero if missing, grows by the section's `len(json.dumps(...))` and its entry count. Every other collection reads as before. |
| Maintenance.TallyTotals | utils/db_manager.py:329-336 | After the inner loop from position j, a collection exists exactly when it did or a later section bears its name, and holds its starting totals plus the sum over those sections (`TallyOf`). |
| Maintenance.GuildKeysOf | utils/db_manager.py:320-321 | One document key per listed id, in list order. |
| Maintenance.StatsVisit | utils/db_manager.py:320-336 | Read-only, and the read is that of `get_guild_data`. It fails, with AttributeError, exactly when the document reads as truthy and is not a dict. |
| Maintenance.StatsVisitAdds | utils/db_manager.py:320-336 | One guild's exact effect: a falsy document adds nothing; a dict adds its JSON size to the size, one to the count, and each section's size and entry count to that section's collection, which it creates if missing. |
| Maintenance.Visited | utils/db_manager.py:320-321 | One document read per key left, in order. |
| Maintenance.AddsCons | utils/db_manager.py:320-336 | Reading one document and then the rest adds what reading them all adds, against the reference totals over the whole list. |
| Maintenance.StatsFrom | utils/db_manager.py:320-336 | Read-only. Once failed, the state stays failed. From a connected state it fails, with AttributeError, exactly when a document it reads is truthy and no dict; otherwise the size and count grow by the reference totals of those documents, and every collection comes to its old totals plus the sum of its sections in them. |
| Maintenance.ConnectionStats | utils/db_manager.py:312-350 | Read-only. A guild list that cannot be iterated gives an error with TypeError. Otherwise the answer fails exactly when a document read is truthy and no dict; when connected, total size and total keys are exactly the JSON sizes and the number of the truthy documents read, total keys never exceed the listed guilds, and a collection exists exactly for the section names of those documents, holding the sum of those sections' sizes and entry counts. |
| Maintenance.StatsVisitFailsOnText | utils/db_manager.py:320-329 | A document cached as text fails the pass with AttributeError. |
| Maintenance.StatsFailOnCachedText | utils/db_manager.py:312-350 | Once any listed guild's document is cached as text (as any successful write of it leaves it), the statistics pass fails. |
| Maintenance.IdList | utils/db_manager.py:377 | `str(guild.id)` for each guild, in iteration order. |
| Maintenance.SyncStep | utils/db_manager.py:363-375 | A step never removes a key. Any stored text it changes is that guild's, and becomes the new-guild document. |
| Maintenance.SyncStepFrame | utils/db_manager.py:360-381 | One guild's step touches only that guild's key. |
| Maintenance.SyncFromFrame | utils/db_manager.py:360-381 | The loop touches only the keys of the guilds still to visit. |
| Maintenance.SyncFrom | utils/db_manager.py:360-381 | The loop from position i never removes a key. Any stored text it changes belongs to a guild still to visit and becomes that guild's new document. |
| Maintenance.SyncStepKeepsCached | utils/db_manager.py:363-375 | A step keeps a document cached as truthy. |
| Maintenance.SyncFromKeepsCached | utils/db_manager.py:360-381 | The loop neither replaces nor re-reads a document cached as truthy. |
| Maintenance.SyncStepKeepsStored | utils/db_manager.py:363-375 | A step keeps a non-empty document that it reads from the service. |
| Maintenance.SyncFromKeepsStored | utils/db_manager.py:360-381 | With distinct guilds, the loop keeps a non-empty document read at its guild's turn. |
| Maintenance.SyncStepCreates | utils/db_manager.py:363-375 | A step whose read finds no document writes the new-guild document. |
| Maintenance.SyncFromCreates | utils/db_manager.py:360-381 | With distinct guilds, a guild with no readable document ends with the new-guild document stored. |
| Maintenance.SyncGuilds | utils/db_manager.py:352-396 | Answers success = number of guilds and failed = 0, so they sum to the guild count. With the service up, the guild list is replaced by exactly the bot's ids in order. No other key changes except the listed guilds' documents. |
| Maintenance.SyncKeepsCachedDocument | utils/db_manager.py:352-396 | A document cached as truthy is never replaced. |
| Maintenance.SyncKeepsStoredDocument | utils/db_manager.py:352-396 | A non-empty document read successfully at its turn is never replaced. |
| Maintenance.SyncCreatesDocument | utils/db_manager.py:352-396 | A guild with no reachable document gets the new-guild document. This replaces what the service held when the read failed. |
| Commit.CommitFrom | utils/db_manager.py:24-31 | The commit loop from position i never removes a key. Any stored text it changes is under a key of a change still to post, and becomes that change's posted text. |
| Commit.CommitLeavesOtherKeys | utils/db_manager.py:24-31 | A commit leaves every key with no buffered change as it was, in store and cache. |
| Commit.CommitWritesEachChange | utils/db_manager.py:24-31 | With distinct keys, each change whose own write succeeds is stored and cached as its posted text, whatever happened before it. A change whose write fails leaves its key as it was. |
| Manager.DatabaseManager.constructor | utils/db_manager.py:34-44 | A new manager has an empty cache, is not initialized and has no operation locks. |
| Manager.DatabaseManager.ReadData | utils/db_manager.py:52-78 | Leaves the state and answers exactly as `Store.Read`. |
| Manager.DatabaseManager.WriteData | utils/db_manager.py:80-101 | Leaves the state and answers exactly as `Store.Write`. |
| Manager.DatabaseManager.DeleteData | utils/db_manager.py:103-117 | Leaves the state and answers exactly as `Store.Delete`. |
| Manager.DatabaseManager.Initialize | utils/db_manager.py:135-164 | Acts as `Lifecycle.Initialize`. The flag is set exactly when it answers True. |
| Manager.DatabaseManager.Close | utils/db_manager.py:166-174 | Empties the cache and clears the flag. The service keeps its contents. |
| Manager.DatabaseManager.CheckConnection | utils/db_manager.py:176-188 | Acts as `Lifecycle.CheckConnection`. |
| Manager.DatabaseManager.Transaction | utils/db_manager.py:190-192 | A fresh transaction for this manager: Idle, with no changes. |
| Manager.DatabaseManager.SafeOperation | utils/db_manager.py:194-205 | Registers the operation name for good. Answers the function's value, or None when it raised. The state is unchanged. |
| Manager.DatabaseManager.ReadDocument | utils/db_manager.py:210 | `_read_data(key) or {}`, as `Documents.GuildDocument`. |
| Manager.DatabaseManager.GetGuildData | utils/db_manager.py:207-210 | Acts as `Documents.GuildDocument` on `guild:{id}`. |
| Manager.DatabaseManager.PatchSection | utils/db_manager.py:221 | Acts as `Documents.PatchCached`. |
| Manager.DatabaseManager.GetSection | utils/db_manager.py:212-215 | Acts as `Documents.Section`. |
| Manager.DatabaseManager.UpdateSection | utils/db_manager.py:217-222 | Acts as `Documents.UpdateSection`. |
| Manager.DatabaseManager.GetUserXp | utils/db_manager.py:224-227 | Acts as `Documents.UserXp`. |
| Manager.DatabaseManager.UpdateUserXp | utils/db_manager.py:229-233 | Acts as `Documents.UpdateUserXp`. |
| Manager.DatabaseManager.GetAllXp | utils/db_manager.py:235-237 | Acts as `Documents.AllXp`. |
| Manager.DatabaseManager.AddLog | utils/db_manager.py:239-253 | Acts as `Documents.AddLog`. |
| Manager.DatabaseManager.AppendLog | utils/db_manager.py:241-253 | The in-place append and the slice, as `Documents.AppendLog`. |
| Manager.DatabaseManager.IncrementStat | utils/db_manager.py:460-468 | Acts as `Documents.IncrementStat`. |
| Manager.DatabaseManager.GetBotStats | utils/db_manager.py:470-476 | A read of `bot_stats:{id}`, as `Store.Read`. |
| Manager.DatabaseManager.EnsureGuildExists | utils/db_manager.py:431-458 | Acts as `Documents.EnsureGuildExists`. |
| Manager.DatabaseManager.EnsureDocumentExists | utils/db_manager.py:435-448 | Acts as `Documents.EnsureDocument`. |
| Manager.DatabaseManager.EnsureIdListed | utils/db_manager.py:450-454 | Acts as `Documents.EnsureListed`. |
| Manager.DatabaseManager.PruneSection | utils/db_manager.py:265-285 | Acts as `Maintenance.Prune`. |
| Manager.DatabaseManager.PruneAllSections | utils/db_manager.py:264-285 | Acts as `Maintenance.PruneAll`. |
| Manager.DatabaseManager.CleanupGuild | utils/db_manager.py:261-287 | Acts as `Maintenance.CleanupGuild`. |
| Manager.DatabaseManager.CleanupOldData | utils/db_manager.py:255-292 | Acts as `Maintenance.Cleanup`, whose properties are the Cleanup lemmas above. |
| Manager.DatabaseManager.CleanupPass | utils/db_manager.py:261-289 | The loop over the guild list ends in the state the recursive pass gives. It answers False at the first exception. |
| Manager.DatabaseManager.Optimize | utils/db_manager.py:294-310 | Acts as `Maintenance.Optimize`. |
| Manager.DatabaseManager.OptimizePass | utils/db_manager.py:302-305 | The rewrite loop ends in the state the recursive pass gives. |
| Manager.DatabaseManager.GetConnectionStats | utils/db_manager.py:312-350 | Acts as `Maintenance.ConnectionStats`, with accumulators in a loop. |
| Manager.DatabaseManager.StatsGuild | utils/db_manager.py:320-336 | Acts as `Maintenance.StatsVisit`. |
| Manager.DatabaseManager.TallySections | utils/db_manager.py:329-336 | Its loop over one document's sections computes exactly the tally whose totals `Maintenance.TallyTotals` states. |
| Manager.DatabaseManager.SyncGuild | utils/db_manager.py:360-381 | Acts as `Maintenance.SyncStep`. |
| Manager.DatabaseManager.SyncGuilds | utils/db_manager.py:352-396 | Acts as `Maintenance.SyncGuilds`. The collected id list is exactly the bot's ids in order. |
| Manager.DatabaseManager.SyncPass | utils/db_manager.py:360-381 | The loop over the bot's guilds ends in the state the recursive pass `SyncFrom` gives. The ids it collects are exactly the bot's ids in order, every guild counts as a success and none as a failure. |
| Manager.DatabaseTransaction.constructor | utils/db_manager.py:13-18 | A new transaction is Idle with an empty buffer. |
| Manager.DatabaseTransaction.Stage | utils/db_manager.py:18 | A caller's `changes[key] = value`: buffered in insertion order, not posted. |
| Manager.DatabaseTransaction.Enter | utils/db_manager.py:20-22 | Takes the lock. |
| Manager.DatabaseTransaction.Exit | utils/db_manager.py:24-31 | Releases the lock either way. When the block raised, it posts nothing and the state is unchanged. Otherwise it posts every buffered key, in order, whatever each post answers, and the state is `Commit.CommitFrom` of the buffer. |

## Left out

- **Transport.** The HTTP session (`_ensure_session`), URLs, percent-encoding, status codes and exceptions are reduced to one `Up`/`Down` outcome per call.
- **JSON text.** The text `json.dumps` produces and the parsing `json.loads` does are a `Codec` parameter. Lemmas that need the two to be inverse, or `dumps` never to be empty, require that.
- **Locks.** The mutual exclusion of `asyncio.Lock` (`_write_lock`, `_operation_locks`, the transaction lock) and all interleaving of coroutines are left out. Operations run one at a time. The operation lock registry is the set `operations`; the transaction lock is the transaction's phase.
- **Unused state.** The `_locks` dict is never used by the code and is not modelled.
- **Time.** Datetimes are integer seconds and `utcnow()` is a `now` parameter. A stored timestamp is an `Int`; any string in its place is taken as text that `fromisoformat` rejects (ValueError).
- **Environment and logging.** `os.getenv('REPLIT_DB_URL')` and the URL checks in the constructor and in `initialize` are left out: the model assumes the URL is set. `print` output is left out, as are the bot object and the discord imports.
- **Floats.** JSON floats are left out. Bools count as numbers only where `increment_stat` adds to one.
- Manager.DatabaseManager.SafeOperation: the called function's own effects are not modelled; only its outcome (its value, or that it raised) is a parameter.
- **Statistics output.** `get_connection_stats` computes the keys of all listed guilds before its loop; in the source it builds each key inside the loop, which is the same sequence. The constant `'prefix'` entry of its answer and the text `str(e)` of an error are left out; the error form carries the exception class.
- **`repr`.** `str()` of a listed id that is not a string uses `repr` without escaping quotes inside strings.
- Documents.EnsureGuildExists: states only which keys can change; its answer and its effects are stated by `Documents.EnsureListed`, `Documents.EnsureDocument` and the Ensure lemmas.
- **`_list_keys`.** It is the function `KeyList.ListKeys` over the service's answer and has no method on the class, because it changes no state.
- **`get_defaults`.** Likewise, it is the function `Documents.Defaults`.
- Manager.DatabaseTransaction.Enter: requires that the transaction's lock is not already held, because a second acquire of an `asyncio.Lock` by the same task never returns.
- Manager.DatabaseTransaction.Exit: requires that the lock is held, because releasing an unheld `asyncio.Lock` raises RuntimeError.
