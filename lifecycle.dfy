/**
 * The manager's lifecycle flag (utils/db_manager.py:135-188): `initialize`
 * makes sure the guild list exists and can be read back, `close` empties
 * the cache and clears the flag, and `check_connection` answers whether
 * the guild list reads as anything but None.
 *
 * `_read_data` answers Python's None both when it gets nothing (absence,
 * failure) and when the stored text is the JSON `null`; `IsNone` is that
 * test.
 */
module Lifecycle {
  import opened Wrappers
  import opened PyJson
  import opened Store
  import opened Documents

  /** `x is None` for what `_read_data` returned. */
  predicate IsNone(o: Option<Json>)
  {
    o.None? || o == Some(Null)
  }

  /**
   * `initialize()`, given whether the manager is already initialized: read
   * the guild list, create it as `[]` when the read gives None (answering
   * False when that write fails), read it again, and answer whether that
   * second read gave anything. The new flag is `initialized || r.out`.
   */
  function Initialize(c: Codec, db: Db, initialized: bool, l1: Link, l2: Link, l3: Link): (r: Reply<bool>)
    ensures initialized ==> r == Reply(db, true)
    ensures r.out <==> initialized || !IsNone(Read(c, db, IndexKey, l1).out) || l2.Up?
    ensures forall k :: k != IndexKey ==> Get(r.db.store, k) == Get(db.store, k) && Get(r.db.cache, k) == Get(db.cache, k)
    ensures !initialized && IsNone(Read(c, db, IndexKey, l1).out) && l2.Up? ==>
              Get(r.db.store, IndexKey) == Some(c.dumps(Arr([])))
    ensures !IsNone(Read(c, db, IndexKey, l1).out) ==> r.db.store == db.store
    ensures r.out && !initialized ==> IndexKey in r.db.cache && r.db.cache[IndexKey] != Null
  {
    if initialized then Reply(db, true)
    else
      var g := Read(c, db, IndexKey, l1);
      var w := if IsNone(g.out) then Write(c, g.db, IndexKey, Arr([]), l2) else Reply(g.db, true);
      if !w.out then Reply(w.db, false)
      else
        var v := Read(c, w.db, IndexKey, l3);
        Reply(v.db, !IsNone(v.out))
  }

  /**
   * The verifying read in `initialize` always finds the guild list in the
   * cache, so its transport outcome never matters.
   */
  lemma InitializeRereadsFromCache(c: Codec, db: Db, initialized: bool, l1: Link, l2: Link, l3: Link, l3': Link)
    ensures Initialize(c, db, initialized, l1, l2, l3) == Initialize(c, db, initialized, l1, l2, l3')
  {
    if !initialized {
      var g := Read(c, db, IndexKey, l1);
      if IsNone(g.out) {
        var w := Write(c, g.db, IndexKey, Arr([]), l2);
        if w.out {
          assert IndexKey in w.db.cache;
        }
      } else {
        assert IndexKey in g.db.cache;
      }
    }
  }

  /** `check_connection()`: False before `initialize`, else whether the guild list reads as anything. */
  function CheckConnection(c: Codec, db: Db, initialized: bool, link: Link): (r: Reply<bool>)
    ensures !initialized ==> r == Reply(db, false)
    ensures initialized ==> r.db == Read(c, db, IndexKey, link).db && (r.out <==> !IsNone(Read(c, db, IndexKey, link).out))
    ensures initialized && IndexKey in db.cache ==> r == Reply(db, db.cache[IndexKey] != Null)
  {
    if !initialized then Reply(db, false)
    else
      var g := Read(c, db, IndexKey, link);
      Reply(g.db, !IsNone(g.out))
  }

  /**
   * Right after an `initialize` that succeeded, `check_connection` answers
   * True without touching the service, whatever the transport does.
   */
  lemma InitializeThenConnected(c: Codec, db: Db, l1: Link, l2: Link, l3: Link, link: Link)
    requires Initialize(c, db, false, l1, l2, l3).out
    ensures var i := Initialize(c, db, false, l1, l2, l3);
            CheckConnection(c, i.db, true, link) == Reply(i.db, true)
  {
  }

  /**
   * On a fresh service, `initialize` caches the guild list as the text
   * `"[]"`, and a following `ensure_guild_exists` then fails for every
   * guild: `str(guild_id) in "[]"` is a substring test that finds no
   * digit, and a string has no `append`.
   */
  lemma InitializeThenEnsureFails(c: Codec, db: Db, l3: Link, id: int, name: string, now: int,
                                  m1: Link, m2: Link, m3: Link, m4: Link)
    requires c.dumps(Arr([])) == "[]"
    requires IndexKey !in db.cache && IndexKey !in db.store
    ensures var i := Initialize(c, db, false, Up, Up, l3);
            && i.out
            && !EnsureGuildExists(c, i.db, id, name, now, m1, m2, m3, m4).out
  {
    var i := Initialize(c, db, false, Up, Up, l3);
    assert Read(c, db, IndexKey, Up).out.None?;
    assert i.db.cache[IndexKey] == Str("[]");
    var g := Read(c, i.db, IndexKey, m1);
    assert g == Reply(i.db, Some(Str("[]")));
    var guilds := OrElse(g.out, Arr([]));
    assert guilds == Str("[]");
    var text := IdText(id);
    if IsSubstring(text, "[]") {
      SubstringChars(text, "[]");
      assert false;
    }
    var created := EnsureDocument(c, g.db, id, name, now, m2, m3);
    assert !EnsureListed(c, created, guilds, id, m4).out;
  }
}
