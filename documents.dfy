/**
 * The guild document layer of the manager (utils/db_manager.py:207-253,
 * 398-476): one JSON document per guild under `guild:{id}`, a list of
 * known guild ids under `guilds`, and counters under `bot_stats:{id}`.
 *
 * Python hands out the very dict the cache holds, so an in-place change
 * to a document that came from the cache (a truthy one) is a change to
 * the cache entry, whether or not the write that follows succeeds. The
 * model writes those changes out as explicit cache updates.
 */
module Documents {
  import opened Wrappers
  import opened PyJson
  import opened Store

  const IndexKey: string := "guilds"
  const MaxLogs: nat := 1000

  /** `str(guild_id)` for an int id. */
  function IdText(id: int): string
  {
    IntToString(id)
  }

  /** `f"guild:{guild_id}"` for an int id. */
  function GuildKey(id: int): string
  {
    "guild:" + IdText(id)
  }

  /** `f"guild:{guild_id}"` for an id taken from the stored guild list. */
  function GuildKeyOf(g: Json): string
  {
    "guild:" + PyStr(g)
  }

  /** `f"bot_stats:{bot_id}"`. */
  function StatsKey(botId: int): string
  {
    "bot_stats:" + IntToString(botId)
  }

  /** No document key is the guild list's key, and an int id and its string form name one document. */
  lemma GuildKeys(g: Json, id: int)
    ensures GuildKeyOf(g) != IndexKey && GuildKey(id) != IndexKey
    ensures GuildKeyOf(Str(IdText(id))) == GuildKeyOf(Int(id)) == GuildKey(id)
  {
    assert GuildKeyOf(g)[5] == ':' && GuildKey(id)[5] == ':' && IndexKey[5] == 's';
  }

  // ------------------------------------------------------------- reading

  /**
   * `get_guild_data` on a document key: never absent; the stored value
   * when it is truthy, `{}` otherwise. A truthy result is the cached object.
   */
  function GuildDocument(c: Codec, db: Db, key: string, link: Link): (r: Reply<Json>)
    ensures Truthy(r.out) || r.out == Obj([])
    ensures r.db.store == db.store
    ensures Truthy(r.out) ==> key in r.db.cache && r.db.cache[key] == r.out
    ensures key in db.cache && Truthy(db.cache[key]) ==> r == Reply(db, db.cache[key])
    ensures forall k :: k != key ==> Get(r.db.cache, k) == Get(db.cache, k)
  {
    var rd := Read(c, db, key, link);
    Reply(rd.db, OrElse(rd.out, Obj([])))
  }

  /** An in-place `doc[section] = v` on the cached document under `key`. */
  function PatchCached(db: Db, key: string, section: string, v: Json): (r: Db)
    ensures r.store == db.store && r.cache.Keys == db.cache.Keys
    ensures forall k :: k != key ==> Get(r.cache, k) == Get(db.cache, k)
  {
    if key in db.cache && db.cache[key].Obj?
    then db.(cache := db.cache[key := Obj(Assign(db.cache[key].fields, section, v))])
    else db
  }

  /**
   * `get_section`: `{}` for a missing section, the stored value (even a
   * falsy one) otherwise; AttributeError when the document is not a dict.
   */
  function Section(c: Codec, db: Db, id: int, section: string, link: Link): (r: Reply<Py<Json>>)
    ensures var d := GuildDocument(c, db, GuildKey(id), link);
            && r.db == d.db
            && (r.out.Raise? <==> !d.out.Obj?)
            && (r.out.Raise? ==> r.out.exc == AttributeError)
            && (r.out.Ret? && section !in Keys(d.out.fields) ==> r.out.value == Obj([]))
            && (r.out.Ret? && section in Keys(d.out.fields) ==> Lookup(d.out.fields, section) == Some(r.out.value))
  {
    var d := GuildDocument(c, db, GuildKey(id), link);
    if d.out.Obj? then Reply(d.db, Ret(LookupOr(d.out.fields, section, Obj([]))))
    else Reply(d.db, Raise(AttributeError))
  }

  // ------------------------------------------------------------ updating

  /**
   * `update_section`: read the whole document, set one section, write the
   * whole document back under `guild:{id}`. Only that key can change.
   */
  function UpdateSection(c: Codec, db: Db, id: int, section: string, value: Json, readLink: Link, writeLink: Link)
    : (r: Reply<Py<bool>>)
    ensures var doc := GuildDocument(c, db, GuildKey(id), readLink).out;
            && (r.out.Raise? <==> !doc.Obj?)
            && (r.out.Raise? ==> r.out.exc == TypeError && r.db.store == db.store)
            && (r.out.Ret? ==> (r.out.value <==> writeLink.Up?))
    ensures forall k :: k != GuildKey(id) ==> Get(r.db.store, k) == Get(db.store, k)
    ensures forall k :: k != GuildKey(id) ==> Get(r.db.cache, k) == Get(db.cache, k)
  {
    var key := GuildKey(id);
    var d := GuildDocument(c, db, key, readLink);
    if !d.out.Obj? then Reply(d.db, Raise(TypeError))
    else
      var doc := Obj(Assign(d.out.fields, section, value));
      var patched := if Truthy(d.out) then PatchCached(d.db, key, section, value) else d.db;
      var w := Write(c, patched, key, doc, writeLink);
      Reply(w.db, Ret(w.out))
  }

  /**
   * A successful `update_section` stores a document in which the named
   * section reads as the new value and every other section reads as in
   * the document it read, in the same key order.
   */
  lemma UpdateSectionChangesOnlyThatSection(c: Codec, db: Db, id: int, section: string, value: Json, readLink: Link)
    requires UpdateSection(c, db, id, section, value, readLink, Up).out == Ret(true)
    ensures var before := GuildDocument(c, db, GuildKey(id), readLink).out;
            var r := UpdateSection(c, db, id, section, value, readLink, Up);
            && before.Obj?
            && var after := Assign(before.fields, section, value);
            && GuildKey(id) in r.db.store
            && r.db.store[GuildKey(id)] == c.dumps(Obj(after))
            && (forall s :: Lookup(after, s) == if s == section then Some(value) else Lookup(before.fields, s))
            && Keys(after) == (if section in Keys(before.fields) then Keys(before.fields) else Keys(before.fields) + [section])
  {
    var before := GuildDocument(c, db, GuildKey(id), readLink).out;
    forall s ensures Lookup(Assign(before.fields, section, value), s) == if s == section then Some(value) else Lookup(before.fields, s) {
      LookupAssign(before.fields, section, value, s);
    }
    KeysAssign(before.fields, section, value);
  }

  /**
   * A read that fails (and a cache miss) makes `update_section` write a
   * document holding ONLY the named section, replacing whatever the
   * service held under that key.
   */
  lemma UpdateSectionAfterFailedRead(c: Codec, db: Db, id: int, section: string, value: Json)
    requires GuildKey(id) !in db.cache
    ensures var r := UpdateSection(c, db, id, section, value, Down, Up);
            r.out == Ret(true) && r.db.store == db.store[GuildKey(id) := c.dumps(Obj([(section, value)]))]
  {
  }

  /**
   * A failed write still changes the cache: the cached document was edited
   * in place before the write, so the cache disagrees with the service.
   */
  lemma UpdateSectionFailedWriteEditsCache(c: Codec, db: Db, id: int, section: string, value: Json, readLink: Link)
    requires GuildKey(id) in db.cache && db.cache[GuildKey(id)].Obj? && Truthy(db.cache[GuildKey(id)])
    ensures var r := UpdateSection(c, db, id, section, value, readLink, Down);
            && r.out == Ret(false)
            && r.db.store == db.store
            && r.db.cache == db.cache[GuildKey(id) := Obj(Assign(db.cache[GuildKey(id)].fields, section, value))]
  {
  }

  /**
   * With the guild's document cached as a non-empty dict, a successful
   * `update_section` stores that document with the one section set.
   */
  lemma UpdateSectionOnCachedDocument(c: Codec, db: Db, id: int, section: string, value: Json, readLink: Link)
    requires GuildKey(id) in db.cache && db.cache[GuildKey(id)].Obj? && Truthy(db.cache[GuildKey(id)])
    ensures var r := UpdateSection(c, db, id, section, value, readLink, Up);
            && r.out == Ret(true)
            && r.db.store[GuildKey(id)] == c.dumps(Obj(Assign(db.cache[GuildKey(id)].fields, section, value)))
  {
    var key := GuildKey(id);
    var doc := db.cache[key];
    assert GuildDocument(c, db, key, readLink) == Reply(db, doc);
    assert PatchCached(db, key, section, value).cache[key] == Obj(Assign(doc.fields, section, value));
    assert Encode(c, Obj(Assign(doc.fields, section, value))) == c.dumps(Obj(Assign(doc.fields, section, value)));
  }

  /**
   * Because a successful write caches the JSON text, a second
   * `update_section` of the same guild in the same process finds a string
   * and raises TypeError without writing anything.
   */
  lemma UpdateSectionTwiceRaises(c: Codec, db: Db, id: int, s1: string, v1: Json, s2: string, v2: Json, l1: Link, l2: Link, l3: Link)
    requires NonEmptyText(c)
    requires UpdateSection(c, db, id, s1, v1, l1, Up).out == Ret(true)
    ensures var first := UpdateSection(c, db, id, s1, v1, l1, Up);
            UpdateSection(c, first.db, id, s2, v2, l2, l3) == Reply(first.db, Raise(TypeError))
  {
    var key := GuildKey(id);
    var before := GuildDocument(c, db, key, l1).out;
    var first := UpdateSection(c, db, id, s1, v1, l1, Up);
    var doc := Obj(Assign(before.fields, s1, v1));
    assert first.db.cache[key] == Str(c.dumps(doc));
    assert c.dumps(doc) != [];
  }

  // -------------------------------------------------------------- user xp

  /** `get_user_xp`: the user's record from the `xp_users` section, if any. */
  function UserXp(c: Codec, db: Db, id: int, user: string, link: Link): (r: Reply<Py<Option<Json>>>)
    ensures r.db == GuildDocument(c, db, GuildKey(id), link).db
    ensures var s := Section(c, db, id, "xp_users", link).out;
            && (s.Raise? ==> r.out == Raise(s.exc))
            && (s.Ret? && s.value.Obj? ==> r.out == Ret(Lookup(s.value.fields, user)))
            && (s.Ret? && !s.value.Obj? ==> r.out == Raise(AttributeError))
  {
    var s := Section(c, db, id, "xp_users", link);
    match s.out
    case Raise(e) => Reply(s.db, Raise(e))
    case Ret(x) => if x.Obj? then Reply(s.db, Ret(Lookup(x.fields, user))) else Reply(s.db, Raise(AttributeError))
  }

  /**
   * `update_user_xp`: set one user's record in `xp_users` (a falsy section
   * starts over as `{}`) and store it with `update_section`.
   */
  function UpdateUserXp(c: Codec, db: Db, id: int, user: string, xp: Json, l1: Link, l2: Link, l3: Link)
    : (r: Reply<Py<bool>>)
    ensures forall k :: k != GuildKey(id) ==> Get(r.db.store, k) == Get(db.store, k)
    ensures var s := Section(c, db, id, "xp_users", l1).out;
            && (s.Raise? ==> r.out == Raise(s.exc))
            && (s.Ret? && Truthy(s.value) && !s.value.Obj? ==> r.out == Raise(TypeError))
  {
    var key := GuildKey(id);
    var s := Section(c, db, id, "xp_users", l1);
    match s.out
    case Raise(e) => Reply(s.db, Raise(e))
    case Ret(x) =>
      var data := if Truthy(x) then x else Obj([]);
      if !data.Obj? then Reply(s.db, Raise(TypeError))
      else
        var users := Obj(Assign(data.fields, user, xp));
        var patched := if Truthy(x) then PatchCached(s.db, key, "xp_users", users) else s.db;
        UpdateSection(c, patched, id, "xp_users", users, l2, l3)
  }

  /**
   * With the guild's document cached as a dict, a successful
   * `update_user_xp` stores that document with `xp_users[user]` set and
   * every other user and section as they were.
   */
  lemma UpdateUserXpSetsOneUser(c: Codec, db: Db, id: int, user: string, xp: Json, l1: Link, l2: Link)
    requires GuildKey(id) in db.cache
    requires var doc := db.cache[GuildKey(id)];
             doc.Obj? && Truthy(doc)
             && var x := LookupOr(doc.fields, "xp_users", Obj([]));
             x.Obj?
    ensures var doc := db.cache[GuildKey(id)];
            var users := LookupOr(doc.fields, "xp_users", Obj([])).fields;
            var r := UpdateUserXp(c, db, id, user, xp, l1, l2, Up);
            && r.out == Ret(true)
            && var stored := Assign(doc.fields, "xp_users", Obj(Assign(users, user, xp)));
            && r.db.store[GuildKey(id)] == c.dumps(Obj(stored))
            && (forall u :: Lookup(Assign(users, user, xp), u) == if u == user then Some(xp) else Lookup(users, u))
            && (forall s :: s != "xp_users" ==> Lookup(stored, s) == Lookup(doc.fields, s))
  {
    var key := GuildKey(id);
    var doc := db.cache[key];
    var x := LookupOr(doc.fields, "xp_users", Obj([]));
    var users := Obj(Assign(x.fields, user, xp));
    var s := Section(c, db, id, "xp_users", l1);
    assert s == Reply(db, Ret(x));
    var patched := if Truthy(x) then PatchCached(db, key, "xp_users", users) else db;
    if Truthy(x) {
      assert patched.cache[key] == Obj(Assign(doc.fields, "xp_users", users));
      AssignTwice(doc.fields, "xp_users", users, users);
      UpdateSectionOnCachedDocument(c, patched, id, "xp_users", users, l2);
    } else {
      UpdateSectionOnCachedDocument(c, db, id, "xp_users", users, l2);
    }
    assert UpdateUserXp(c, db, id, user, xp, l1, l2, Up) == UpdateSection(c, patched, id, "xp_users", users, l2, Up);
    forall u ensures Lookup(Assign(x.fields, user, xp), u) == if u == user then Some(xp) else Lookup(x.fields, u) {
      LookupAssign(x.fields, user, xp, u);
    }
    forall s | s != "xp_users" ensures Lookup(Assign(doc.fields, "xp_users", users), s) == Lookup(doc.fields, s) {
      LookupAssign(doc.fields, "xp_users", users, s);
    }
  }

  /** Setting a key twice is setting it to the second value. */
  lemma {:induction false} AssignTwice<V>(fields: seq<(string, V)>, k: string, v1: V, v2: V)
    ensures Assign(Assign(fields, k, v1), k, v2) == Assign(fields, k, v2)
  {
    if fields != [] && fields[0].0 != k {
      AssignTwice(fields[1..], k, v1, v2);
      assert Assign(fields, k, v1)[1..] == Assign(fields[1..], k, v1);
    }
  }

  /** `get_all_xp`: the `xp_users` section, or `{}` when it is falsy. */
  function AllXp(c: Codec, db: Db, id: int, link: Link): (r: Reply<Py<Json>>)
    ensures r.db == GuildDocument(c, db, GuildKey(id), link).db
    ensures r.out.Ret? ==> Truthy(r.out.value) || r.out.value == Obj([])
    ensures r.out.Raise? <==> Section(c, db, id, "xp_users", link).out.Raise?
  {
    var s := Section(c, db, id, "xp_users", link);
    match s.out
    case Raise(e) => Reply(s.db, Raise(e))
    case Ret(x) => Reply(s.db, Ret(OrElse(Some(x), Obj([]))))
  }

  // ------------------------------------------------------------------ logs

  /** The last `MaxLogs` entries of `logs` (all of them when there are fewer). */
  function Window(logs: seq<Json>): (r: seq<Json>)
    ensures |r| == if |logs| > MaxLogs then MaxLogs else |logs|
  {
    if |logs| > MaxLogs then logs[|logs| - MaxLogs..] else logs
  }

  /** The log list `add_log` stores: `entry` appended, then cut to the newest `MaxLogs`. */
  function Recent(logs: seq<Json>, entry: Json): (r: seq<Json>)
    ensures 1 <= |r| <= MaxLogs && r[|r| - 1] == entry
    ensures |r| == if |logs| < MaxLogs then |logs| + 1 else MaxLogs
    ensures r[..|r| - 1] == logs[|logs| + 1 - |r|..]
  {
    var all := logs + [entry];
    assert all[..|all| - 1] == logs;
    Window(all)
  }

  /** The log list after `add_log` of each of `entries` in turn. */
  function AppendAll(logs: seq<Json>, entries: seq<Json>): seq<Json>
    decreases |entries|
  {
    if entries == [] then logs else AppendAll(Recent(logs, entries[0]), entries[1..])
  }

  /**
   * Sequential appends keep exactly the newest `MaxLogs` entries in append
   * order: after 1005 appends to an empty list, the first 5 are gone and
   * the other 1000 remain in order.
   */
  lemma {:induction false} AppendAllKeepsNewest(logs: seq<Json>, entries: seq<Json>)
    requires |logs| <= MaxLogs
    ensures AppendAll(logs, entries) == Window(logs + entries)
    decreases |entries|
  {
    if entries == [] {
      assert logs + entries == logs;
    } else {
      var first, rest := logs + [entries[0]], entries[1..];
      assert first + rest == logs + entries by {
        assert entries == [entries[0]] + rest;
      }
      calc {
        AppendAll(logs, entries);
        AppendAll(Recent(logs, entries[0]), rest);
        { AppendAllKeepsNewest(Recent(logs, entries[0]), rest); }
        Window(Recent(logs, entries[0]) + rest);
        Window(Window(first) + rest);
        { WindowConcat(first, rest); }
        Window(first + rest);
      }
    }
  }

  /** Cutting to the window before appending more changes nothing the final cut keeps. */
  lemma WindowConcat(a: seq<Json>, b: seq<Json>)
    ensures Window(Window(a) + b) == Window(a + b)
  {
    if |a| > MaxLogs {
      var m := |a| - MaxLogs;
      var w := a[m..];
      assert w + b == (a + b)[m..];
      assert (a + b)[m..][|b|..] == (a + b)[m + |b|..];
    }
  }


  /** The entry `add_log` appends: the caller's fields with `timestamp` set to now. */
  function LogEntry(entry: seq<(string, Json)>, now: int): (e: Json)
    ensures e.Obj? && Lookup(e.fields, "timestamp") == Some(Int(now))
    ensures forall k :: k != "timestamp" ==> Lookup(e.fields, k) == Lookup(entry, k)
    ensures DistinctKeys(entry) ==> DistinctKeys(e.fields)
  {
    var fields := Assign(entry, "timestamp", Int(now));
    forall k ensures Lookup(fields, k) == if k == "timestamp" then Some(Int(now)) else Lookup(entry, k) {
      LookupAssign(entry, "timestamp", Int(now), k);
    }
    assert DistinctKeys(entry) ==> DistinctKeys(fields) by {
      if DistinctKeys(entry) { AssignDistinct(entry, "timestamp", Int(now)); }
    }
    Obj(fields)
  }

  /**
   * `add_log`: append a timestamped entry to the `logs` section (a falsy
   * section starts over as `[]`), keep the newest `MaxLogs`, and store the
   * list with `update_section`. A section that is not a list has no
   * `append` and raises AttributeError.
   */
  function AddLog(c: Codec, db: Db, id: int, entry: seq<(string, Json)>, now: int, l1: Link, l2: Link, l3: Link)
    : (r: Reply<Py<bool>>)
    ensures forall k :: k != GuildKey(id) ==> Get(r.db.store, k) == Get(db.store, k)
    ensures var s := Section(c, db, id, "logs", l1).out;
            && (s.Raise? ==> r.out == Raise(s.exc))
            && (s.Ret? && Truthy(s.value) && !s.value.Arr? ==> r.out == Raise(AttributeError) && r.db.store == db.store)
  {
    var s := Section(c, db, id, "logs", l1);
    match s.out
    case Raise(e) => Reply(s.db, Raise(e))
    case Ret(x) => AppendLog(c, s.db, id, x, LogEntry(entry, now), l2, l3)
  }

  /**
   * The rest of `add_log` once the `logs` section reads as `x`: append
   * `e` (in place, when `x` is the cached list), cut to the newest
   * `MaxLogs`, and store the list with `update_section`.
   */
  function AppendLog(c: Codec, db: Db, id: int, x: Json, e: Json, l2: Link, l3: Link): (r: Reply<Py<bool>>)
    ensures forall k :: k != GuildKey(id) ==> Get(r.db.store, k) == Get(db.store, k)
    ensures Truthy(x) && !x.Arr? ==> r == Reply(db, Raise(AttributeError))
  {
    var data := if Truthy(x) then x else Arr([]);
    if !data.Arr? then Reply(db, Raise(AttributeError))
    else
      var patched := if Truthy(x) then PatchCached(db, GuildKey(id), "logs", Arr(data.items + [e])) else db;
      UpdateSection(c, patched, id, "logs", Arr(Recent(data.items, e)), l2, l3)
  }

  /** The log list `add_log` starts from, given the document it reads. */
  function LogsIn(doc: Json): seq<Json>
    requires doc.Obj?
  {
    var x := LookupOr(doc.fields, "logs", Obj([]));
    if Truthy(x) && x.Arr? then x.items else []
  }

  /**
   * With the guild's document cached as a non-empty dict whose `logs` (as
   * `x`) are a list or falsy, the rest of `add_log` stores that document
   * with `logs` replaced by the newest entries ending in `e`.
   */
  lemma AppendLogOnDocument(c: Codec, db: Db, id: int, x: Json, e: Json, l2: Link)
    requires GuildKey(id) in db.cache
    requires var doc := db.cache[GuildKey(id)];
             doc.Obj? && Truthy(doc) && x == LookupOr(doc.fields, "logs", Obj([]))
    requires x.Arr? || !Truthy(x)
    ensures var doc := db.cache[GuildKey(id)];
            var r := AppendLog(c, db, id, x, e, l2, Up);
            && r.out == Ret(true)
            && r.db.store[GuildKey(id)] == c.dumps(Obj(Assign(doc.fields, "logs", Arr(Recent(LogsIn(doc), e)))))
  {
    var key := GuildKey(id);
    var doc := db.cache[key];
    var newLogs := Arr(Recent(LogsIn(doc), e));
    var data := if Truthy(x) then x else Arr([]);
    assert data.items == LogsIn(doc);
    var patched := if Truthy(x) then PatchCached(db, key, "logs", Arr(x.items + [e])) else db;
    assert AppendLog(c, db, id, x, e, l2, Up) == UpdateSection(c, patched, id, "logs", newLogs, l2, Up);
    if Truthy(x) {
      assert patched.cache[key] == Obj(Assign(doc.fields, "logs", Arr(x.items + [e])));
      AssignTwice(doc.fields, "logs", Arr(x.items + [e]), newLogs);
      UpdateSectionOnCachedDocument(c, patched, id, "logs", newLogs, l2);
    } else {
      UpdateSectionOnCachedDocument(c, db, id, "logs", newLogs, l2);
    }
  }

  /**
   * When the read finds the guild's document as a dict whose `logs` are a
   * list or falsy, `add_log` stores that document with `logs` replaced by
   * the newest entries ending in the new timestamped one, all other
   * sections unchanged.
   */
  lemma AddLogStoresRecentLogs(c: Codec, db: Db, id: int, entry: seq<(string, Json)>, now: int, l1: Link, l2: Link)
    requires var doc := GuildDocument(c, db, GuildKey(id), l1).out;
             doc.Obj? && Truthy(doc)
             && var x := LookupOr(doc.fields, "logs", Obj([]));
             x.Arr? || !Truthy(x)
    ensures var doc := GuildDocument(c, db, GuildKey(id), l1).out;
            var r := AddLog(c, db, id, entry, now, l1, l2, Up);
            var stored := Assign(doc.fields, "logs", Arr(Recent(LogsIn(doc), LogEntry(entry, now))));
            && r.out == Ret(true)
            && r.db.store[GuildKey(id)] == c.dumps(Obj(stored))
            && (forall s :: s != "logs" ==> Lookup(stored, s) == Lookup(doc.fields, s))
  {
    var d := GuildDocument(c, db, GuildKey(id), l1);
    var doc := d.out;
    var x := LookupOr(doc.fields, "logs", Obj([]));
    var e := LogEntry(entry, now);
    var newLogs := Arr(Recent(LogsIn(doc), e));
    assert Section(c, db, id, "logs", l1) == Reply(d.db, Ret(x));
    assert AddLog(c, db, id, entry, now, l1, l2, Up) == AppendLog(c, d.db, id, x, e, l2, Up);
    AppendLogOnDocument(c, d.db, id, x, e, l2);
    forall s | s != "logs" ensures Lookup(Assign(doc.fields, "logs", newLogs), s) == Lookup(doc.fields, s) {
      LookupAssign(doc.fields, "logs", newLogs, s);
    }
  }

  // -------------------------------------------------------------- defaults

  /** `get_defaults`: the canned configuration of a known section. */
  function Defaults(section: string): (r: Option<Json>)
    ensures r.Some? <==> section in {"whisper_config", "logs", "xp_settings", "roles"}
    ensures r.Some? ==> r.value.Obj? && Truthy(r.value) && DistinctKeys(r.value.fields)
  {
    if section == "whisper_config" then
      Some(Obj([("enabled", Bool(false)), ("channel_id", Null), ("staff_role", Null), ("anonymous_allowed", Bool(true))]))
    else if section == "logs" then
      Some(Obj([("enabled", Bool(false)), ("log_channel", Null),
                ("log_types", Obj([("member", Arr([Str("join"), Str("leave")])),
                                   ("server", Arr([Str("message_delete"), Str("message_edit")])),
                                   ("mod", Arr([Str("warn"), Str("kick"), Str("ban"), Str("timeout")]))]))]))
    else if section == "xp_settings" then
      Some(Obj([("enabled", Bool(true)), ("rate", Int(15)), ("cooldown", Int(60)), ("level_roles", Obj([]))]))
    else if section == "roles" then
      Some(Obj([("color_roles", Arr([])), ("level_roles", Obj([])), ("staff_role", Null), ("muted_role", Null)]))
    else None
  }

  /** The sections a new guild document starts with (utils/db_manager.py:366-374 and 439-447). */
  const InitialSections: seq<(string, Json)> := [
    ("whisper_config", Obj([("enabled", Bool(false))])),
    ("logs", Obj([("enabled", Bool(false))])),
    ("xp_settings", Obj([("enabled", Bool(true)), ("rate", Int(15)), ("cooldown", Int(60))])),
    ("roles", Obj([("color_roles", Arr([])), ("level_roles", Obj([]))]))
  ]

  /** The document `sync_guilds` and `ensure_guild_exists` create for a new guild. */
  function NewGuildDocument(id: int, name: string, now: int): (doc: Json)
    ensures doc.Obj? && Truthy(doc)
    ensures Lookup(doc.fields, "id") == Some(Str(IdText(id)))
    ensures Lookup(doc.fields, "name") == Some(Str(name))
    ensures Lookup(doc.fields, "joined_at") == Some(Int(now))
  {
    var rest := [("joined_at", Int(now))] + InitialSections;
    var named := [("name", Str(name))] + rest;
    var fields := [("id", Str(IdText(id)))] + named;
    assert fields[1..] == named && named[1..] == rest;
    assert Lookup(fields, "joined_at") == Lookup(named, "joined_at") == Lookup(rest, "joined_at");
    Obj(fields)
  }

  /** Every entry of `a` is in `b` with the same value. */
  predicate SubDict(a: seq<(string, Json)>, b: seq<(string, Json)>)
  {
    forall i :: 0 <= i < |a| ==> Lookup(b, a[i].0) == Some(a[i].1)
  }

  /** A section of a new guild document agrees with that section's defaults on every setting it has. */
  predicate AgreesWithDefaults(section: (string, Json))
  {
    Defaults(section.0).Some? && section.1.Obj? && SubDict(section.1.fields, Defaults(section.0).value.fields)
  }

  /**
   * Each section of a new guild document is a part of that section's
   * default configuration, agreeing with it on every setting it has.
   */
  lemma InitialSectionsAgreeWithDefaults(i: nat)
    requires i < |InitialSections|
    ensures AgreesWithDefaults(InitialSections[i])
  {
    var (name, section) := InitialSections[i];
    var d := Defaults(name).value.fields;
    if i == 0 {
      assert Lookup(d, "enabled") == Some(Bool(false));
    } else if i == 1 {
      assert Lookup(d, "enabled") == Some(Bool(false));
    } else if i == 2 {
      assert Lookup(d, "enabled") == Some(Bool(true));
      assert Lookup(d, "rate") == Some(Int(15));
      assert Lookup(d, "cooldown") == Some(Int(60));
    } else {
      assert Lookup(d, "color_roles") == Some(Arr([]));
      assert Lookup(d, "level_roles") == Some(Obj([]));
    }
    assert SubDict(section.fields, d);
  }


  // --------------------------------------------------------------- stats

  /** `stats.get(stat_name, 0) + 1`: ints and bools add; anything else raises TypeError. */
  function Bump(v: Json): (r: Option<int>)
    ensures v.Int? ==> r == Some(v.i + 1)
    ensures r.Some? <==> v.Int? || v.Bool?
  {
    match v
    case Int(i) => Some(i + 1)
    case Bool(b) => Some(if b then 2 else 1)
    case _ => None
  }

  /**
   * `increment_stat`: read the counters (a falsy value starts over as
   * `{}`), add one to the named counter, write them back. Any exception
   * (counters that are not a dict, a counter that is not a number) answers
   * false.
   */
  function IncrementStat(c: Codec, db: Db, botId: int, stat: string, l1: Link, l2: Link): (r: Reply<bool>)
    ensures forall k :: k != StatsKey(botId) ==> Get(r.db.store, k) == Get(db.store, k)
    ensures r.out ==> l2.Up? && StatsKey(botId) in r.db.store
    ensures var before := OrElse(Read(c, db, StatsKey(botId), l1).out, Obj([]));
            r.out ==> && before.Obj?
                      && Bump(LookupOr(before.fields, stat, Int(0))).Some?
                      && r.db.store[StatsKey(botId)] == c.dumps(Obj(Assign(before.fields, stat, Int(Bump(LookupOr(before.fields, stat, Int(0))).value))))
    ensures !r.out ==> r.db.store == db.store
    ensures var before := OrElse(Read(c, db, StatsKey(botId), l1).out, Obj([]));
            before.Obj? && Bump(LookupOr(before.fields, stat, Int(0))).Some? && l2.Up? ==> r.out
  {
    var key := StatsKey(botId);
    var rd := Read(c, db, key, l1);
    var stats := OrElse(rd.out, Obj([]));
    if !stats.Obj? then Reply(rd.db, false)
    else
      match Bump(LookupOr(stats.fields, stat, Int(0)))
      case None => Reply(rd.db, false)
      case Some(n) =>
        var counters := Obj(Assign(stats.fields, stat, Int(n)));
        var edited := if Truthy(stats) then rd.db.(cache := rd.db.cache[key := counters]) else rd.db;
        Write(c, edited, key, counters, l2)
  }

  /**
   * A counter read from the service goes up by exactly one, and every
   * other counter is kept.
   */
  lemma IncrementStatAddsOne(c: Codec, db: Db, botId: int, stat: string, fields: seq<(string, Json)>, n: int)
    requires StatsKey(botId) !in db.cache && StatsKey(botId) in db.store
    requires Decode(c, db.store[StatsKey(botId)]) == Obj(fields)
    requires Lookup(fields, stat) == Some(Int(n))
    ensures var r := IncrementStat(c, db, botId, stat, Up, Up);
            && r.out
            && var after := Assign(fields, stat, Int(n + 1));
            && r.db.store[StatsKey(botId)] == c.dumps(Obj(after))
            && Lookup(after, stat) == Some(Int(n + 1))
            && (forall s :: s != stat ==> Lookup(after, s) == Lookup(fields, s))
  {
    var after := Assign(fields, stat, Int(n + 1));
    forall s ensures Lookup(after, s) == if s == stat then Some(Int(n + 1)) else Lookup(fields, s) {
      LookupAssign(fields, stat, Int(n + 1), s);
    }
    IncrementStatStores(c, db, botId, stat, fields, n);
  }

  lemma IncrementStatStores(c: Codec, db: Db, botId: int, stat: string, fields: seq<(string, Json)>, n: int)
    requires StatsKey(botId) !in db.cache && StatsKey(botId) in db.store
    requires Decode(c, db.store[StatsKey(botId)]) == Obj(fields)
    requires Lookup(fields, stat) == Some(Int(n))
    ensures var r := IncrementStat(c, db, botId, stat, Up, Up);
            r.out && r.db.store[StatsKey(botId)] == c.dumps(Obj(Assign(fields, stat, Int(n + 1))))
  {
    var key := StatsKey(botId);
    var rd := Read(c, db, key, Up);
    assert rd.out == Some(Obj(fields));
    assert fields != [];
    assert OrElse(rd.out, Obj([])) == Obj(fields);
    assert LookupOr(fields, stat, Int(0)) == Int(n);
    assert Bump(Int(n)) == Some(n + 1);
  }


  /**
   * Because a successful write caches the JSON text, the next
   * `increment_stat` for the same bot in the same process finds a string,
   * fails and writes nothing: counters stop moving until the cache is
   * cleared.
   */
  lemma IncrementStatTwiceFails(c: Codec, db: Db, botId: int, s1: string, s2: string, l1: Link, l2: Link, l3: Link)
    requires NonEmptyText(c)
    requires IncrementStat(c, db, botId, s1, l1, Up).out
    ensures var first := IncrementStat(c, db, botId, s1, l1, Up);
            IncrementStat(c, first.db, botId, s2, l2, l3) == Reply(first.db, false)
  {
    var key := StatsKey(botId);
    var first := IncrementStat(c, db, botId, s1, l1, Up);
    assert first.db.cache[key].Str?;
    var text := first.db.cache[key].s;
    assert text == c.dumps(Json.Obj(Assign(OrElse(Read(c, db, key, l1).out, Obj([])).fields, s1,
      Int(Bump(LookupOr(OrElse(Read(c, db, key, l1).out, Obj([])).fields, s1, Int(0))).value))));
    assert text != [];
  }

  // ------------------------------------------------------- ensure_guild_exists

  /**
   * `ensure_guild_exists`: create the document when the read finds none
   * (or a falsy one), and append `str(id)` to the guild list when the
   * `in` test says it is missing. Write results are ignored; an exception
   * (a list that does not support `in` or has no `append`) answers false.
   */
  function EnsureGuildExists(c: Codec, db: Db, id: int, name: string, now: int, l1: Link, l2: Link, l3: Link, l4: Link)
    : (r: Reply<bool>)
    ensures forall k :: k != GuildKey(id) && k != IndexKey ==> Get(r.db.store, k) == Get(db.store, k)
  {
    var g := Read(c, db, IndexKey, l1);
    var created := EnsureDocument(c, g.db, id, name, now, l2, l3);
    EnsureListed(c, created, OrElse(g.out, Arr([])), id, l4)
  }

  /** The first half of `ensure_guild_exists`: create the document if the read finds it falsy. */
  function EnsureDocument(c: Codec, db: Db, id: int, name: string, now: int, readLink: Link, writeLink: Link): (r: Db)
    ensures forall k :: k != GuildKey(id) ==> Get(r.store, k) == Get(db.store, k) && Get(r.cache, k) == Get(db.cache, k)
    ensures Truthy(GuildDocument(c, db, GuildKey(id), readLink).out) ==> r.store == db.store
    ensures NonEmptyText(c) && writeLink.Up? ==> GuildKey(id) in r.cache && Truthy(r.cache[GuildKey(id)])
    ensures !Truthy(GuildDocument(c, db, GuildKey(id), readLink).out) ==>
              if writeLink.Up? then Get(r.store, GuildKey(id)) == Some(c.dumps(NewGuildDocument(id, name, now)))
              else r.store == db.store
  {
    var d := GuildDocument(c, db, GuildKey(id), readLink);
    if Truthy(d.out) then d.db else CreateDocument(c, d.db, id, name, now, writeLink)
  }

  /** The write of the new-guild document when the read found nothing. */
  function CreateDocument(c: Codec, db: Db, id: int, name: string, now: int, writeLink: Link): (r: Db)
    ensures forall k :: k != GuildKey(id) ==> Get(r.store, k) == Get(db.store, k) && Get(r.cache, k) == Get(db.cache, k)
    ensures writeLink.Down? ==> r == db
    ensures writeLink.Up? ==> && GuildKey(id) in r.store && r.store[GuildKey(id)] == c.dumps(NewGuildDocument(id, name, now))
                              && GuildKey(id) in r.cache && r.cache[GuildKey(id)] == Str(c.dumps(NewGuildDocument(id, name, now)))
  {
    if writeLink.Down? then db
    else
      var doc := NewGuildDocument(id, name, now);
      assert Encode(c, doc) == c.dumps(doc);
      Write(c, db, GuildKey(id), doc, Up).db
  }

  /**
   * The second half: append `str(id)` to the guild list `guilds` (the
   * value read before, which is the cached object when truthy) unless the
   * `in` test finds it, and write the list back.
   */
  function EnsureListed(c: Codec, db: Db, guilds: Json, id: int, link: Link): (r: Reply<bool>)
    ensures forall k :: k != IndexKey ==> Get(r.db.store, k) == Get(db.store, k) && Get(r.db.cache, k) == Get(db.cache, k)
    ensures r.out <==> Contains(guilds, IdText(id)) == Ret(true) || (guilds.Arr? && Str(IdText(id)) !in guilds.items)
    ensures Contains(guilds, IdText(id)) != Ret(false) || !guilds.Arr? ==> r.db == db
  {
    match Contains(guilds, IdText(id))
    case Raise(_) => Reply(db, false)
    case Ret(present) =>
      if present then Reply(db, true)
      else if !guilds.Arr? then Reply(db, false)
      else
        var list := Arr(guilds.items + [Str(IdText(id))]);
        var edited := if Truthy(guilds) then db.(cache := db.cache[IndexKey := list]) else db;
        Reply(Write(c, edited, IndexKey, list, link).db, true)
  }


  /** Occurrences of `x` in `s`. */
  function Occurrences(s: seq<Json>, x: Json): nat
  {
    if s == [] then 0 else (if s[0] == x then 1 else 0) + Occurrences(s[1..], x)
  }

  lemma {:induction false} OccurrencesAppend(s: seq<Json>, x: Json, y: Json)
    ensures Occurrences(s + [y], x) == Occurrences(s, x) + (if x == y then 1 else 0)
  {
    if s != [] {
      OccurrencesAppend(s[1..], x, y);
      assert (s + [y])[1..] == s[1..] + [y];
    }
  }

  lemma {:induction false} OccurrencesAbsent(s: seq<Json>, x: Json)
    requires x !in s
    ensures Occurrences(s, x) == 0
  {
    if s != [] {
      assert s[0] != x;
      assert forall y :: y in s[1..] ==> y in s;
      OccurrencesAbsent(s[1..], x);
    }
  }

  /**
   * The document is created only when the read found none: a guild whose
   * document reads as truthy keeps it untouched.
   */
  lemma EnsureKeepsExistingDocument(c: Codec, db: Db, id: int, name: string, now: int, l1: Link, l2: Link, l3: Link, l4: Link)
    requires Truthy(GuildDocument(c, Read(c, db, IndexKey, l1).db, GuildKey(id), l2).out)
    ensures forall k :: k != IndexKey ==> Get(EnsureGuildExists(c, db, id, name, now, l1, l2, l3, l4).db.store, k) == Get(db.store, k)
  {
    GuildKeys(Null, id);
  }

  /**
   * When the stored guild list is a list without the id and the service is
   * up, the list is stored again with the id appended, so it holds the id
   * exactly once.
   */
  lemma EnsureAppendsIdOnce(c: Codec, db: Db, id: int, name: string, now: int, l2: Link, l3: Link)
    requires var g := Read(c, db, IndexKey, Up).out;
             g.Some? && g.value.Arr? && Str(IdText(id)) !in g.value.items
    ensures var items := Read(c, db, IndexKey, Up).out.value.items;
            var r := EnsureGuildExists(c, db, id, name, now, Up, l2, l3, Up);
            && r.out
            && r.db.store[IndexKey] == c.dumps(Arr(items + [Str(IdText(id))]))
            && Occurrences(items + [Str(IdText(id))], Str(IdText(id))) == 1
  {
    var items := Read(c, db, IndexKey, Up).out.value.items;
    OccurrencesAbsent(items, Str(IdText(id)));
    OccurrencesAppend(items, Str(IdText(id)), Str(IdText(id)));
    GuildKeys(Null, id);
  }

  /**
   * What a call leaves in the cache: a truthy document for the guild, and
   * a truthy guild list that is either a list holding the id or not a
   * list at all.
   */
  ghost predicate Settled(db: Db, id: int)
  {
    && GuildKey(id) in db.cache && Truthy(db.cache[GuildKey(id)])
    && IndexKey in db.cache && Truthy(db.cache[IndexKey])
    && (db.cache[IndexKey].Arr? ==> Str(IdText(id)) in db.cache[IndexKey].items)
  }

  /** A call that succeeded with the service up leaves the guild settled. */
  lemma EnsureSettles(c: Codec, db: Db, id: int, name: string, now: int)
    requires NonEmptyText(c)
    requires EnsureGuildExists(c, db, id, name, now, Up, Up, Up, Up).out
    ensures Settled(EnsureGuildExists(c, db, id, name, now, Up, Up, Up, Up).db, id)
  {
    var key := GuildKey(id);
    GuildKeys(Null, id);
    var g := Read(c, db, IndexKey, Up);
    var guilds := OrElse(g.out, Arr([]));
    var created := EnsureDocument(c, g.db, id, name, now, Up, Up);
    assert Get(created.cache, IndexKey) == Get(g.db.cache, IndexKey);
    if Contains(guilds, IdText(id)) == Ret(true) {
      assert guilds != Arr([]) && g.out == Some(guilds);
    }
    ListedSettles(c, created, guilds, id);
    var r := EnsureListed(c, created, guilds, id, Up);
    assert Get(r.db.cache, key) == Get(created.cache, key);
  }

  /** The second half, when it succeeds, leaves a truthy guild list cached, holding the id if it is a list. */
  lemma ListedSettles(c: Codec, db: Db, guilds: Json, id: int)
    requires NonEmptyText(c)
    requires Contains(guilds, IdText(id)) == Ret(true) ==> Get(db.cache, IndexKey) == Some(guilds) && Truthy(guilds)
    requires EnsureListed(c, db, guilds, id, Up).out
    ensures var r := EnsureListed(c, db, guilds, id, Up).db;
            && IndexKey in r.cache && Truthy(r.cache[IndexKey])
            && (r.cache[IndexKey].Arr? ==> Str(IdText(id)) in r.cache[IndexKey].items)
  {
    if Contains(guilds, IdText(id)) != Ret(true) {
      var list := Arr(guilds.items + [Str(IdText(id))]);
      assert c.dumps(list) != [];
    }
  }

  /**
   * Idempotence: once the guild is settled, a further call reads both
   * values from the cache, writes nothing and changes nothing, whatever
   * its transport outcomes.
   */
  lemma SettledEnsureWritesNothing(c: Codec, db: Db, id: int, name: string, now: int, l1: Link, l2: Link, l3: Link, l4: Link)
    requires Settled(db, id)
    ensures EnsureGuildExists(c, db, id, name, now, l1, l2, l3, l4).db == db
  {
    GuildKeys(Null, id);
  }

  /** Two calls for one guild with the service up write the guild's data once. */
  lemma EnsureTwiceWritesNothing(c: Codec, db: Db, id: int, name: string, now: int,
                                 name': string, now': int, l1: Link, l2: Link, l3: Link, l4: Link)
    requires NonEmptyText(c)
    requires EnsureGuildExists(c, db, id, name, now, Up, Up, Up, Up).out
    ensures var first := EnsureGuildExists(c, db, id, name, now, Up, Up, Up, Up);
            EnsureGuildExists(c, first.db, id, name', now', l1, l2, l3, l4).db.store == first.db.store
  {
    var first := EnsureGuildExists(c, db, id, name, now, Up, Up, Up, Up);
    EnsureSettles(c, db, id, name, now);
    SettledEnsureWritesNothing(c, first.db, id, name', now', l1, l2, l3, l4);
  }
}
