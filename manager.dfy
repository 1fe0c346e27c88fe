/**
 * The two classes of utils/db_manager.py as objects with state:
 * `DatabaseManager`, whose cache and lifecycle flag change in place, over
 * a key-value service whose contents are a field here too, and
 * `DatabaseTransaction`, which buffers changes and posts them when its
 * `async with` block ends without an exception.
 *
 * Every method is proved against the function of the model that states
 * what the operation does (the `Store`, `Documents`, `Maintenance`,
 * `Lifecycle` and `Commit` modules): its new state `State()` and its answer
 * are exactly that function's. The properties of the operations are
 * proved about those functions. Each transport call's outcome is a `Link`
 * parameter; a loop takes one per guild (`fetches(i)`, `posts(i)`).
 */
module Manager {
  import opened Wrappers
  import opened PyJson
  import opened Store
  import opened Documents
  import opened Maintenance
  import opened Lifecycle
  import opened Commit

  class DatabaseManager {
    /** How `json.dumps`/`json.loads` map documents to stored text. */
    const codec: Codec
    /** `_cache`: documents by key, edited in place by several operations. */
    var cache: map<string, Json>
    /** The service's contents: stored text by key. */
    var store: map<string, string>
    /** `_initialized`. */
    var initialized: bool
    /** The names that have an entry in `_operation_locks`. */
    var operations: set<string>

    /** The cache and the service together, as the functions of the model see them. */
    function State(): Db
      reads this
    {
      Db(cache, store)
    }

    /** A manager over a service holding `store`, with an empty cache, not yet initialized. */
    constructor(codec: Codec, store: map<string, string>)
      ensures this.codec == codec && State() == Db(map[], store)
      ensures !initialized && operations == {}
    {
      this.codec := codec;
      this.cache := map[];
      this.store := store;
      this.initialized := false;
      this.operations := {};
    }

    // ----------------------------------------------------------- transport

    /** `_read_data`: the cached value, else the decoded stored text (then cached), else None. */
    method ReadData(key: string, link: Link) returns (r: Option<Json>)
      modifies this
      ensures Reply(State(), r) == Read(codec, old(State()), key, link)
      ensures initialized == old(initialized) && operations == old(operations)
    {
      if key in cache {
        return Some(cache[key]);
      }
      if link.Down? || key !in store {
        return None;
      }
      var data := Decode(codec, store[key]);
      cache := cache[key := data];
      return Some(data);
    }

    /** `_write_data`: serialise, post, and on success cache the posted text. */
    method WriteData(key: string, data: Json, link: Link) returns (ok: bool)
      modifies this
      ensures Reply(State(), ok) == Write(codec, old(State()), key, data, link)
      ensures initialized == old(initialized) && operations == old(operations)
    {
      var text := Encode(codec, data);
      if link.Down? {
        return false;
      }
      store := store[key := text];
      cache := cache[key := Str(text)];
      return true;
    }

    /** `_delete_data`: delete on the service, and on success drop the cache entry. */
    method DeleteData(key: string, link: Link) returns (ok: bool)
      modifies this
      ensures Reply(State(), ok) == Delete(old(State()), key, link)
      ensures initialized == old(initialized) && operations == old(operations)
    {
      if link.Down? {
        return false;
      }
      store := store - {key};
      cache := cache - {key};
      return true;
    }

    // ----------------------------------------------------------- lifecycle

    /** `initialize()`; the flag is set exactly when it answers True. */
    method Initialize(l1: Link, l2: Link, l3: Link) returns (ok: bool)
      modifies this
      ensures Reply(State(), ok) == Lifecycle.Initialize(codec, old(State()), old(initialized), l1, l2, l3)
      ensures initialized == ok && operations == old(operations)
    {
      if initialized {
        return true;
      }
      var guilds := ReadData(IndexKey, l1);
      if IsNone(guilds) {
        var created := WriteData(IndexKey, Arr([]), l2);
        if !created {
          return false;
        }
      }
      guilds := ReadData(IndexKey, l3);
      if IsNone(guilds) {
        return false;
      }
      initialized := true;
      return true;
    }

    /** `close()`: empty the cache and clear the flag; the service keeps its contents. */
    method Close()
      modifies this
      ensures cache == map[] && store == old(store)
      ensures !initialized && operations == old(operations)
    {
      cache := map[];
      initialized := false;
    }

    /** `check_connection()`. */
    method CheckConnection(link: Link) returns (ok: bool)
      modifies this
      ensures Reply(State(), ok) == Lifecycle.CheckConnection(codec, old(State()), initialized, link)
      ensures initialized == old(initialized) && operations == old(operations)
    {
      if !initialized {
        return false;
      }
      var guilds := ReadData(IndexKey, link);
      return !IsNone(guilds);
    }

    /** `transaction(guild_id, namespace)`: a new transaction, with its own lock and no changes. */
    method Transaction(guildId: int, namespace: string) returns (t: DatabaseTransaction)
      ensures fresh(t) && t.manager == this && t.guildId == guildId && t.namespace == namespace
      ensures t.phase == Idle && t.changes == []
    {
      t := new DatabaseTransaction(this, guildId, namespace);
    }

    /**
     * `safe_operation(name, func)`, given what `func` came to: its value,
     * or None when it raised. The name gets its lock entry, for good.
     */
    method SafeOperation(name: string, outcome: Py<Json>) returns (r: Option<Json>)
      modifies this
      ensures operations == old(operations) + {name}
      ensures outcome.Ret? ==> r == Some(outcome.value)
      ensures outcome.Raise? ==> r == None
      ensures State() == old(State()) && initialized == old(initialized)
    {
      operations := operations + {name};
      match outcome
      case Ret(v) => return Some(v);
      case Raise(_) => return None;
    }

    // ----------------------------------------------------------- documents

    /** `_read_data(key) or {}`. */
    method ReadDocument(key: string, link: Link) returns (doc: Json)
      modifies this
      ensures Reply(State(), doc) == GuildDocument(codec, old(State()), key, link)
      ensures initialized == old(initialized) && operations == old(operations)
    {
      var data := ReadData(key, link);
      doc := OrElse(data, Obj([]));
    }

    /** `get_guild_data(guild_id)`. */
    method GetGuildData(id: int, link: Link) returns (doc: Json)
      modifies this
      ensures Reply(State(), doc) == GuildDocument(codec, old(State()), GuildKey(id), link)
      ensures initialized == old(initialized) && operations == old(operations)
    {
      doc := ReadDocument(GuildKey(id), link);
    }

    /** `doc[section] = v` where `doc` is the dict cached under `key`. */
    method PatchSection(key: string, section: string, v: Json)
      modifies this
      ensures State() == PatchCached(old(State()), key, section, v)
      ensures initialized == old(initialized) && operations == old(operations)
    {
      if key in cache && cache[key].Obj? {
        cache := cache[key := Obj(Assign(cache[key].fields, section, v))];
      }
    }

    /** `get_section(guild_id, section)`. */
    method GetSection(id: int, section: string, link: Link) returns (r: Py<Json>)
      modifies this
      ensures Reply(State(), r) == Section(codec, old(State()), id, section, link)
      ensures initialized == old(initialized) && operations == old(operations)
    {
      var data := GetGuildData(id, link);
      if !data.Obj? {
        return Raise(AttributeError);
      }
      return Ret(LookupOr(data.fields, section, Obj([])));
    }

    /** `update_section(guild_id, section, data)`. */
    method UpdateSection(id: int, section: string, value: Json, readLink: Link, writeLink: Link) returns (r: Py<bool>)
      modifies this
      ensures Reply(State(), r) == Documents.UpdateSection(codec, old(State()), id, section, value, readLink, writeLink)
      ensures initialized == old(initialized) && operations == old(operations)
    {
      var key := GuildKey(id);
      var doc := GetGuildData(id, readLink);
      if !doc.Obj? {
        return Raise(TypeError);
      }
      if Truthy(doc) {
        PatchSection(key, section, value);
      }
      var ok := WriteData(key, Obj(Assign(doc.fields, section, value)), writeLink);
      return Ret(ok);
    }

    /** `get_user_xp(guild_id, user_id)`. */
    method GetUserXp(id: int, user: string, link: Link) returns (r: Py<Option<Json>>)
      modifies this
      ensures Reply(State(), r) == UserXp(codec, old(State()), id, user, link)
      ensures initialized == old(initialized) && operations == old(operations)
    {
      var s := GetSection(id, "xp_users", link);
      match s
      case Raise(e) => return Raise(e);
      case Ret(x) =>
        if !x.Obj? {
          return Raise(AttributeError);
        }
        return Ret(Lookup(x.fields, user));
    }

    /** `update_user_xp(guild_id, user_id, xp_data)`. */
    method UpdateUserXp(id: int, user: string, xp: Json, l1: Link, l2: Link, l3: Link) returns (r: Py<bool>)
      modifies this
      ensures Reply(State(), r) == Documents.UpdateUserXp(codec, old(State()), id, user, xp, l1, l2, l3)
      ensures initialized == old(initialized) && operations == old(operations)
    {
      var s := GetSection(id, "xp_users", l1);
      if s.Raise? {
        return Raise(s.exc);
      }
      var x := s.value;
      var data := if Truthy(x) then x else Obj([]);
      if !data.Obj? {
        return Raise(TypeError);
      }
      var users := Obj(Assign(data.fields, user, xp));
      if Truthy(x) {
        PatchSection(GuildKey(id), "xp_users", users);
      }
      r := UpdateSection(id, "xp_users", users, l2, l3);
    }

    /** `get_all_xp(guild_id)`. */
    method GetAllXp(id: int, link: Link) returns (r: Py<Json>)
      modifies this
      ensures Reply(State(), r) == AllXp(codec, old(State()), id, link)
      ensures initialized == old(initialized) && operations == old(operations)
    {
      var s := GetSection(id, "xp_users", link);
      match s
      case Raise(e) => return Raise(e);
      case Ret(x) => return Ret(OrElse(Some(x), Obj([])));
    }

    /** `add_log(guild_id, log_entry)` at time `now`. */
    method AddLog(id: int, entry: seq<(string, Json)>, now: int, l1: Link, l2: Link, l3: Link) returns (r: Py<bool>)
      modifies this
      ensures Reply(State(), r) == Documents.AddLog(codec, old(State()), id, entry, now, l1, l2, l3)
      ensures initialized == old(initialized) && operations == old(operations)
    {
      var s := GetSection(id, "logs", l1);
      if s.Raise? {
        return Raise(s.exc);
      }
      r := AppendLog(id, s.value, LogEntry(entry, now), l2, l3);
    }

    /** The rest of `add_log` once the `logs` section reads as `x`. */
    method AppendLog(id: int, x: Json, e: Json, l2: Link, l3: Link) returns (r: Py<bool>)
      modifies this
      ensures Reply(State(), r) == Documents.AppendLog(codec, old(State()), id, x, e, l2, l3)
      ensures initialized == old(initialized) && operations == old(operations)
    {
      var data := if Truthy(x) then x else Arr([]);
      if !data.Arr? {
        return Raise(AttributeError);
      }
      var logs := data.items + [e];
      ghost var read := State();
      if Truthy(x) {
        PatchSection(GuildKey(id), "logs", Arr(logs));
      }
      assert State() == if Truthy(x) then PatchCached(read, GuildKey(id), "logs", Arr(logs)) else read;
      ghost var all := logs;
      if |logs| > MaxLogs {
        logs := logs[|logs| - MaxLogs..];
      }
      assert logs == Window(all) == Recent(data.items, e);
      r := UpdateSection(id, "logs", Arr(logs), l2, l3);
    }

    /** `increment_stat(bot_id, stat_name)`. */
    method IncrementStat(botId: int, stat: string, l1: Link, l2: Link) returns (ok: bool)
      modifies this
      ensures Reply(State(), ok) == Documents.IncrementStat(codec, old(State()), botId, stat, l1, l2)
      ensures initialized == old(initialized) && operations == old(operations)
    {
      var key := StatsKey(botId);
      var read := ReadData(key, l1);
      var stats := OrElse(read, Obj([]));
      if !stats.Obj? {
        return false;
      }
      var n := Bump(LookupOr(stats.fields, stat, Int(0)));
      if n.None? {
        return false;
      }
      var counters := Obj(Assign(stats.fields, stat, Int(n.value)));
      if Truthy(stats) {
        cache := cache[key := counters];
      }
      ok := WriteData(key, counters, l2);
    }

    /** `get_bot_stats(bot_id)`. */
    method GetBotStats(botId: int, link: Link) returns (r: Option<Json>)
      modifies this
      ensures Reply(State(), r) == Read(codec, old(State()), StatsKey(botId), link)
      ensures initialized == old(initialized) && operations == old(operations)
    {
      r := ReadData(StatsKey(botId), link);
    }

    /** `ensure_guild_exists(guild_id, guild_name)` at time `now`. */
    method EnsureGuildExists(id: int, name: string, now: int, l1: Link, l2: Link, l3: Link, l4: Link) returns (ok: bool)
      modifies this
      ensures Reply(State(), ok) == Documents.EnsureGuildExists(codec, old(State()), id, name, now, l1, l2, l3, l4)
      ensures initialized == old(initialized) && operations == old(operations)
    {
      var read := ReadData(IndexKey, l1);
      var guilds := OrElse(read, Arr([]));
      EnsureDocumentExists(id, name, now, l2, l3);
      ok := EnsureIdListed(guilds, id, l4);
    }

    /** The first half of `ensure_guild_exists`: create the document if it reads as falsy. */
    method EnsureDocumentExists(id: int, name: string, now: int, readLink: Link, writeLink: Link)
      modifies this
      ensures State() == EnsureDocument(codec, old(State()), id, name, now, readLink, writeLink)
      ensures initialized == old(initialized) && operations == old(operations)
    {
      var doc := GetGuildData(id, readLink);
      if !Truthy(doc) {
        var _ := WriteData(GuildKey(id), NewGuildDocument(id, name, now), writeLink);
      }
    }

    /** The second half: append `str(id)` to the guild list read before unless `in` finds it. */
    method EnsureIdListed(guilds: Json, id: int, link: Link) returns (ok: bool)
      modifies this
      ensures Reply(State(), ok) == EnsureListed(codec, old(State()), guilds, id, link)
      ensures initialized == old(initialized) && operations == old(operations)
    {
      var present := Contains(guilds, IdText(id));
      if present.Raise? {
        return false;
      }
      if present.value {
        return true;
      }
      if !guilds.Arr? {
        return false;
      }
      var list := Arr(guilds.items + [Str(IdText(id))]);
      if Truthy(guilds) {
        cache := cache[IndexKey := list];
      }
      var _ := WriteData(IndexKey, list, link);
      return true;
    }

    // --------------------------------------------------------- maintenance

    /** One `if section in data: data[section] = [...]` step of the cleanup. */
    method PruneSection(key: string, shared: bool, data: Json, section: string, rule: Rule) returns (r: Py<Json>)
      modifies this
      ensures Reply(State(), r) == Prune(old(State()), key, shared, data, section, rule)
      ensures initialized == old(initialized) && operations == old(operations)
    {
      var present := Contains(data, section);
      if present.Raise? {
        return Raise(present.exc);
      }
      if !present.value {
        return Ret(data);
      }
      if !data.Obj? {
        return Raise(TypeError);
      }
      var items := Iterate(LookupOr(data.fields, section, Null));
      if items.Raise? {
        return Raise(items.exc);
      }
      var kept := Keep(rule, items.value);
      if kept.Raise? {
        return Raise(kept.exc);
      }
      if shared {
        PatchSection(key, section, Arr(kept.value));
      }
      return Ret(Obj(Assign(data.fields, section, Arr(kept.value))));
    }

    /** The three cleanup steps of one guild's document, in the source's order. */
    method PruneAllSections(key: string, shared: bool, data: Json, cutoff: int, now: int) returns (r: Py<Json>)
      modifies this
      ensures Reply(State(), r) == PruneAll(old(State()), key, shared, data, cutoff, now)
      ensures initialized == old(initialized) && operations == old(operations)
    {
      var d1 := PruneSection(key, shared, data, "logs", LogRule(cutoff));
      if d1.Raise? {
        return Raise(d1.exc);
      }
      var d2 := PruneSection(key, shared, d1.value, "mod_actions", ActionRule(now));
      if d2.Raise? {
        return Raise(d2.exc);
      }
      r := PruneSection(key, shared, d2.value, "whispers", WhisperRule(cutoff));
    }

    /** The body of the loop of `cleanup_old_data` for the guild list entry `g`. */
    method CleanupGuild(g: Json, cutoff: int, now: int, readLink: Link, writeLink: Link) returns (r: Py<bool>)
      modifies this
      ensures Reply(State(), r) == Maintenance.CleanupGuild(codec, old(State()), g, cutoff, now, readLink, writeLink)
      ensures initialized == old(initialized) && operations == old(operations)
    {
      var key := GuildKeyOf(g);
      var data := ReadDocument(key, readLink);
      var cleaned := PruneAllSections(key, Truthy(data), data, cutoff, now);
      if cleaned.Raise? {
        return Raise(cleaned.exc);
      }
      var _ := WriteData(key, cleaned.value, writeLink);
      return Ret(true);
    }

    /** `cleanup_old_data(days)` at time `now`. */
    method CleanupOldData(days: int, now: int, indexLink: Link, fetches: nat -> Link, posts: nat -> Link) returns (ok: bool)
      modifies this
      ensures Reply(State(), ok) == Cleanup(codec, old(State()), days, now, indexLink, fetches, posts)
      ensures initialized == old(initialized) && operations == old(operations)
    {
      var cutoff := now - days * SecondsPerDay;
      var read := ReadData(IndexKey, indexLink);
      var listed := Iterate(OrElse(read, Arr([])));
      if listed.Raise? {
        return false;
      }
      assert Cleanup(codec, old(State()), days, now, indexLink, fetches, posts)
          == CleanupFrom(codec, State(), listed.value, 0, cutoff, now, fetches, posts);
      ok := CleanupPass(listed.value, cutoff, now, fetches, posts);
    }

    /** The loop of `cleanup_old_data` over the guild list `ids`; the first exception ends it with False. */
    method CleanupPass(ids: seq<Json>, cutoff: int, now: int, fetches: nat -> Link, posts: nat -> Link) returns (ok: bool)
      modifies this
      ensures Reply(State(), ok) == CleanupFrom(codec, old(State()), ids, 0, cutoff, now, fetches, posts)
      ensures initialized == old(initialized) && operations == old(operations)
    {
      ghost var whole := CleanupFrom(codec, State(), ids, 0, cutoff, now, fetches, posts);
      var i := 0;
      while i < |ids|
        invariant 0 <= i <= |ids|
        invariant CleanupFrom(codec, State(), ids, i, cutoff, now, fetches, posts) == whole
        invariant initialized == old(initialized) && operations == old(operations)
      {
        ghost var before := State();
        var step := CleanupGuild(ids[i], cutoff, now, fetches(i), posts(i));
        if step.Raise? {
          assert whole == Reply(State(), false);
          return false;
        }
        assert CleanupFrom(codec, before, ids, i, cutoff, now, fetches, posts)
            == CleanupFrom(codec, State(), ids, i + 1, cutoff, now, fetches, posts);
        i := i + 1;
      }
      return true;
    }

    /** `optimize()`. */
    method Optimize(indexLink: Link, fetches: nat -> Link, posts: nat -> Link) returns (ok: bool)
      modifies this
      ensures Reply(State(), ok) == Maintenance.Optimize(codec, old(State()), indexLink, fetches, posts)
      ensures initialized == old(initialized) && operations == old(operations)
    {
      cache := map[];
      var read := ReadData(IndexKey, indexLink);
      var listed := Iterate(OrElse(read, Arr([])));
      if listed.Raise? {
        return false;
      }
      assert Maintenance.Optimize(codec, old(State()), indexLink, fetches, posts)
          == Reply(OptimizeFrom(codec, State(), listed.value, 0, fetches, posts), true);
      OptimizePass(listed.value, fetches, posts);
      return true;
    }

    /** The loop of `optimize` over the guild list `ids`: write back every document that reads as truthy. */
    method OptimizePass(ids: seq<Json>, fetches: nat -> Link, posts: nat -> Link)
      modifies this
      ensures State() == OptimizeFrom(codec, old(State()), ids, 0, fetches, posts)
      ensures initialized == old(initialized) && operations == old(operations)
    {
      ghost var whole := OptimizeFrom(codec, State(), ids, 0, fetches, posts);
      var i := 0;
      while i < |ids|
        invariant 0 <= i <= |ids|
        invariant OptimizeFrom(codec, State(), ids, i, fetches, posts) == whole
        invariant initialized == old(initialized) && operations == old(operations)
      {
        ghost var before := State();
        var key := GuildKeyOf(ids[i]);
        var data := ReadDocument(key, fetches(i));
        if Truthy(data) {
          var _ := WriteData(key, data, posts(i));
        }
        assert OptimizeFrom(codec, before, ids, i, fetches, posts) == OptimizeFrom(codec, State(), ids, i + 1, fetches, posts);
        i := i + 1;
      }
    }

    /** `get_connection_stats()`. */
    method GetConnectionStats(indexLink: Link, fetches: nat -> Link) returns (s: Stats)
      modifies this
      ensures Reply(State(), s) == ConnectionStats(codec, old(State()), indexLink, fetches)
      ensures initialized == old(initialized) && operations == old(operations)
    {
      var read := ReadData(IndexKey, indexLink);
      var listed := Iterate(OrElse(read, Arr([])));
      if listed.Raise? {
        return Failed(listed.exc);
      }
      var keys := GuildKeysOf(listed.value);
      var size: nat, count: nat, collections := 0, 0, [];
      ghost var whole := StatsFrom(codec, State(), keys, 0, fetches, Connected(0, 0, []));
      var i := 0;
      while i < |keys|
        invariant 0 <= i <= |keys|
        invariant StatsFrom(codec, State(), keys, i, fetches, Connected(size, count, collections)) == whole
        invariant initialized == old(initialized) && operations == old(operations)
      {
        var visit := StatsGuild(keys[i], fetches(i), size, count, collections);
        if visit.Failed? {
          return visit;
        }
        size, count, collections := visit.totalSize, visit.totalKeys, visit.collections;
        i := i + 1;
      }
      return Connected(size, count, collections);
    }

    /** One guild of `get_connection_stats`, given the totals so far. */
    method StatsGuild(key: string, link: Link, size: nat, count: nat, collections: seq<(string, Totals)>) returns (r: Stats)
      modifies this
      ensures Reply(State(), r) == StatsVisit(codec, old(State()), key, link, size, count, collections)
      ensures initialized == old(initialized) && operations == old(operations)
    {
      ghost var before := State();
      var data := ReadDocument(key, link);
      ghost var visit := StatsVisit(codec, before, key, link, size, count, collections);
      if !Truthy(data) {
        assert visit == Reply(State(), Connected(size, count, collections));
        return Connected(size, count, collections);
      }
      if !data.Obj? {
        assert visit == Reply(State(), Failed(AttributeError));
        return Failed(AttributeError);
      }
      var sections := TallySections(collections, data.fields);
      assert visit == Reply(State(), Connected(size + JsonSize(codec, data), count + 1, sections));
      return Connected(size + JsonSize(codec, data), count + 1, sections);
    }

    /** The inner loop of `get_connection_stats` over one document's sections. */
    method TallySections(collections: seq<(string, Totals)>, sections: seq<(string, Json)>) returns (r: seq<(string, Totals)>)
      ensures r == Tally(codec, collections, sections, 0)
    {
      r := collections;
      var j := 0;
      while j < |sections|
        invariant 0 <= j <= |sections|
        invariant Tally(codec, r, sections, j) == Tally(codec, collections, sections, 0)
      {
        r := AddSection(codec, r, sections[j].0, sections[j].1);
        j := j + 1;
      }
    }

    /** The body of the loop of `sync_guilds` for one guild. */
    method SyncGuild(guild: (int, string), now: int, fetch: Link, post: Link)
      modifies this
      ensures State() == SyncStep(codec, old(State()), guild, now, fetch, post)
      ensures initialized == old(initialized) && operations == old(operations)
    {
      var (id, name) := guild;
      var data := GetGuildData(id, fetch);
      if !Truthy(data) {
        var _ := WriteData(GuildKey(id), NewGuildDocument(id, name, now), post);
      }
    }

    /** `sync_guilds(bot)` for the bot's guilds (id and name, in order) at time `now`. */
    method SyncGuilds(guilds: seq<(int, string)>, now: int, fetches: nat -> Link, posts: nat -> Link, indexLink: Link)
      returns (counts: SyncCounts)
      modifies this
      ensures Reply(State(), counts) == Maintenance.SyncGuilds(codec, old(State()), guilds, now, fetches, posts, indexLink)
      ensures initialized == old(initialized) && operations == old(operations)
    {
      var ids, success, failed := SyncPass(guilds, now, fetches, posts);
      ghost var synced := State();
      assert Maintenance.SyncGuilds(codec, old(State()), guilds, now, fetches, posts, indexLink)
          == Reply(Write(codec, synced, IndexKey, Arr(ids), indexLink).db, SyncCounts(success, failed));
      var _ := WriteData(IndexKey, Arr(ids), indexLink);
      return SyncCounts(success, failed);
    }

    /**
     * The loop of `sync_guilds`: each guild's step, with the ids collected
     * in order and every guild counted as a success.
     */
    method SyncPass(guilds: seq<(int, string)>, now: int, fetches: nat -> Link, posts: nat -> Link)
      returns (ids: seq<Json>, success: nat, failed: nat)
      modifies this
      ensures State() == SyncFrom(codec, old(State()), guilds, 0, now, fetches, posts)
      ensures ids == IdList(guilds) && success == |guilds| && failed == 0
      ensures initialized == old(initialized) && operations == old(operations)
    {
      success, failed := 0, 0;
      ids := [];
      ghost var whole := SyncFrom(codec, State(), guilds, 0, now, fetches, posts);
      ghost var all := IdList(guilds);
      var i := 0;
      while i < |guilds|
        invariant 0 <= i <= |guilds|
        invariant SyncFrom(codec, State(), guilds, i, now, fetches, posts) == whole
        invariant success == i && failed == 0
        invariant |ids| == i && forall j :: 0 <= j < i ==> ids[j] == all[j]
        invariant initialized == old(initialized) && operations == old(operations)
      {
        SyncFromUnfold(codec, State(), guilds, i, now, fetches, posts);
        SyncGuild(guilds[i], now, fetches(i), posts(i));
        var entry := Str(IdText(guilds[i].0));
        assert all[i] == entry;
        forall j | 0 <= j < i + 1 ensures (ids + [entry])[j] == all[j] {
          if j < i {
            assert (ids + [entry])[j] == ids[j];
          }
        }
        ids := ids + [entry];
        success := success + 1;
        i := i + 1;
      }
      assert ids == all;
    }
  }

  /** Where a transaction is in its `async with` block. */
  datatype Phase = Idle | Held | Committed | Aborted

  class DatabaseTransaction {
    const manager: DatabaseManager
    const guildId: int
    const namespace: string
    /** The state of `_lock` and of the block: held between enter and exit. */
    var phase: Phase
    /** `changes`: the buffered writes, a dict in insertion order. */
    var changes: seq<(string, Json)>

    constructor(manager: DatabaseManager, guildId: int, namespace: string)
      ensures this.manager == manager && this.guildId == guildId && this.namespace == namespace
      ensures phase == Idle && changes == []
    {
      this.manager := manager;
      this.guildId := guildId;
      this.namespace := namespace;
      this.phase := Idle;
      this.changes := [];
    }

    /** `transaction.changes[key] = value`: buffered, not posted. */
    method Stage(key: string, value: Json)
      modifies this
      ensures changes == Assign(old(changes), key, value) && phase == old(phase)
    {
      changes := Assign(changes, key, value);
    }

    /** `__aenter__`: take the lock. */
    method Enter()
      requires phase != Held
      modifies this
      ensures phase == Held && changes == old(changes)
    {
      phase := Held;
    }

    /**
     * `__aexit__`: when the block raised, post nothing; otherwise post every
     * buffered change, in order, whatever each post answers. Either way the
     * lock is released. `posted` lists the keys posted, in order.
     */
    method Exit(raised: bool, links: nat -> Link) returns (posted: seq<string>)
      requires phase == Held
      modifies this, manager
      ensures phase == (if raised then Aborted else Committed) && changes == old(changes)
      ensures raised ==> posted == [] && manager.State() == old(manager.State())
      ensures !raised ==> posted == Keys(changes)
      ensures !raised ==> manager.State() == CommitFrom(manager.codec, old(manager.State()), changes, 0, links)
      ensures manager.initialized == old(manager.initialized) && manager.operations == old(manager.operations)
    {
      posted := [];
      if !raised {
        ghost var whole := CommitFrom(manager.codec, manager.State(), changes, 0, links);
        var i := 0;
        while i < |changes|
          invariant 0 <= i <= |changes|
          modifies manager
          invariant posted == Keys(changes[..i])
          invariant CommitFrom(manager.codec, manager.State(), changes, i, links) == whole
          invariant manager.initialized == old(manager.initialized) && manager.operations == old(manager.operations)
        {
          var (key, value) := changes[i];
          var _ := manager.WriteData(key, value, links(i));
          posted := posted + [key];
          assert changes[..i + 1] == changes[..i] + [changes[i]];
          i := i + 1;
        }
        assert changes[..i] == changes;
      }
      phase := if raised then Aborted else Committed;
    }
  }
}
